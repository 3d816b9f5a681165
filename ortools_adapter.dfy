/** The OR-Tools planner (`solve_plan_ortools`) without the search: how the
    routing model is built from tasks, vehicles and depots, and how the
    solver's answer (successor links and cumulative times per index) is read
    back into a plan. The answer itself is an input. */
module OrToolsAdapter {
  import opened Wrappers
  import opened Strings
  import opened TimeFormat
  import opened PlanModel

  /** The penalty for leaving a task out of every route. */
  const DropPenalty: nat := 10000

  datatype TimeRange = TimeRange(lo: nat, hi: nat)

  /** The routing model as the adapter builds it. Nodes are numbered depots
      first, then tasks in input order; `droppable` lists the nodes that carry
      a drop disjunction, each with penalty `DropPenalty`. */
  datatype RoutingProblem = RoutingProblem(
    depotCount: nat,
    locations: seq<Coord>,
    serviceTimes: seq<nat>,
    demands: seq<int>,
    windows: seq<TimeRange>,
    starts: seq<nat>,
    ends: seq<nat>,
    capacities: seq<int>,
    horizon: TimeRange,
    droppable: seq<nat>)

  /** What `solve_plan_ortools` needs to get past model construction: both
      horizon ends and every task window parse, and there is a depot (the
      round-robin `i % len(depots)` and `depots[0]` fail otherwise). */
  predicate Buildable(depots: seq<Coord>, tasks: seq<Task>, cfg: Config)
  {
    && |depots| >= 1
    && ParseTime(cfg.horizonStart).Some?
    && ParseTime(cfg.horizonEnd).Some?
    && WindowsParse(tasks)
  }

  function Horizon(cfg: Config): TimeRange
    requires ParseTime(cfg.horizonStart).Some? && ParseTime(cfg.horizonEnd).Some?
  {
    TimeRange(ParseTime(cfg.horizonStart).value, ParseTime(cfg.horizonEnd).value)
  }

  /** A task node's window: the task's own, or the whole horizon. */
  function TaskWindow(t: Task, horizon: TimeRange): TimeRange
    requires WindowParses(t)
  {
    if t.window.Some? then TimeRange(WindowStart(t), WindowEnd(t)) else horizon
  }

  function Repeat<T>(n: nat, x: T): (r: seq<T>)
    ensures |r| == n && forall i :: 0 <= i < n ==> r[i] == x
  {
    seq(n, _ => x)
  }

  /** The node windows of lines 44-53, as a value. */
  function NodeWindows(depotCount: nat, tasks: seq<Task>, horizon: TimeRange): seq<TimeRange>
    requires WindowsParse(tasks)
  {
    Repeat(depotCount, horizon) + seq(|tasks|, j requires 0 <= j < |tasks| => TaskWindow(tasks[j], horizon))
  }

  /** Round-robin assignment of vehicles to depots. */
  function RoundRobin(vehicleCount: nat, depotCount: nat): seq<nat>
    requires depotCount >= 1
  {
    seq(vehicleCount, i requires 0 <= i < vehicleCount => i % depotCount)
  }

  function TaskNodes(depotCount: nat, taskCount: nat): seq<nat>
  {
    seq(taskCount, j requires 0 <= j < taskCount => depotCount + j)
  }

  /** The model `solve_plan_ortools` hands to the solver. */
  function Problem(depots: seq<Coord>, tasks: seq<Task>, vehicles: seq<Vehicle>, cfg: Config): RoutingProblem
    requires Buildable(depots, tasks, cfg)
  {
    RoutingProblem(
      |depots|,
      depots + seq(|tasks|, j requires 0 <= j < |tasks| => tasks[j].location),
      Repeat(|depots|, 0) + seq(|tasks|, j requires 0 <= j < |tasks| => ServiceOf(tasks[j], cfg.serviceDefault)),
      Repeat(|depots|, 0) + seq(|tasks|, j requires 0 <= j < |tasks| => tasks[j].size),
      NodeWindows(|depots|, tasks, Horizon(cfg)),
      RoundRobin(|vehicles|, |depots|),
      RoundRobin(|vehicles|, |depots|),
      seq(|vehicles|, i requires 0 <= i < |vehicles| => vehicles[i].capacity),
      Horizon(cfg),
      TaskNodes(|depots|, |tasks|))
  }

  /** The time callback: travel between the two nodes plus the service time
      at the node the vehicle leaves. */
  function TimeTransit(p: RoutingProblem, travel: TravelTime, from: nat, to: nat): nat
    requires from < |p.locations| && to < |p.locations| && from < |p.serviceTimes|
  {
    travel(p.locations[from], p.locations[to]) + p.serviceTimes[from]
  }

  // ---------------------------------------------------------------------------
  // Properties of the model

  /** Node layout: node `i` below the depot count is depot `i`, with no
      service time, no demand and the whole horizon as its window; node
      `depots + j` is task `j` at its location, with its size as demand, its
      service time (the default when the task's is missing or 0) and its own
      window or the horizon. */
  lemma ProblemLayout(depots: seq<Coord>, tasks: seq<Task>, vehicles: seq<Vehicle>, cfg: Config)
    requires Buildable(depots, tasks, cfg)
    ensures var p := Problem(depots, tasks, vehicles, cfg);
      var n := |depots| + |tasks|;
      && p.depotCount == |depots|
      && |p.locations| == |p.serviceTimes| == |p.demands| == |p.windows| == n
      && (forall i :: 0 <= i < |depots| ==>
            p.locations[i] == depots[i] && p.serviceTimes[i] == 0 && p.demands[i] == 0
            && p.windows[i] == Horizon(cfg))
      && (forall j :: 0 <= j < |tasks| ==>
            && p.locations[|depots| + j] == tasks[j].location
            && p.serviceTimes[|depots| + j] == ServiceOf(tasks[j], cfg.serviceDefault)
            && p.demands[|depots| + j] == tasks[j].size
            && (tasks[j].window.Some? ==>
                  p.windows[|depots| + j] == TimeRange(WindowStart(tasks[j]), WindowEnd(tasks[j])))
            && (tasks[j].window.None? ==> p.windows[|depots| + j] == Horizon(cfg)))
  {
    var p := Problem(depots, tasks, vehicles, cfg);
    forall i | 0 <= i < |depots|
      ensures p.locations[i] == depots[i] && p.serviceTimes[i] == 0 && p.demands[i] == 0
      ensures p.windows[i] == Horizon(cfg)
    {
    }
    forall j | 0 <= j < |tasks|
      ensures p.locations[|depots| + j] == tasks[j].location
      ensures p.serviceTimes[|depots| + j] == ServiceOf(tasks[j], cfg.serviceDefault)
      ensures p.demands[|depots| + j] == tasks[j].size
      ensures p.windows[|depots| + j] == TaskWindow(tasks[j], Horizon(cfg))
    {
    }
  }

  /** Vehicles: vehicle `i` starts and ends at depot `i mod |depots|`, and its
      capacity is the vehicle's. Drops: exactly the task nodes, each once, may
      be dropped. */
  lemma ProblemVehiclesAndDrops(depots: seq<Coord>, tasks: seq<Task>, vehicles: seq<Vehicle>, cfg: Config)
    requires Buildable(depots, tasks, cfg)
    ensures var p := Problem(depots, tasks, vehicles, cfg);
      && |p.starts| == |p.ends| == |p.capacities| == |vehicles|
      && (forall i :: 0 <= i < |vehicles| ==>
            p.starts[i] == p.ends[i] == i % |depots| && p.starts[i] < |depots|
            && p.capacities[i] == vehicles[i].capacity)
      && (forall n :: n in p.droppable <==> |depots| <= n < |depots| + |tasks|)
      && |p.droppable| == |tasks|
  {
    var p := Problem(depots, tasks, vehicles, cfg);
    forall n | |depots| <= n < |depots| + |tasks| ensures n in p.droppable {
      assert p.droppable[n - |depots|] == n;
    }
  }

  /** Leaving a depot costs travel only; leaving task `j` costs travel plus
      that task's service time. */
  lemma TransitFromNodes(depots: seq<Coord>, tasks: seq<Task>, vehicles: seq<Vehicle>, cfg: Config,
                         travel: TravelTime, from: nat, to: nat)
    requires Buildable(depots, tasks, cfg)
    requires from < |depots| + |tasks| && to < |depots| + |tasks|
    ensures var p := Problem(depots, tasks, vehicles, cfg);
      && (from < |depots| ==> TimeTransit(p, travel, from, to) == travel(depots[from], p.locations[to]))
      && (from >= |depots| ==>
            TimeTransit(p, travel, from, to)
            == travel(tasks[from - |depots|].location, p.locations[to])
               + ServiceOf(tasks[from - |depots|], cfg.serviceDefault))
  {
    ProblemLayout(depots, tasks, vehicles, cfg);
  }

  /** Model construction, with the window and drop loops of the source,
      proved to build `Problem`. */
  method BuildProblem(depots: seq<Coord>, tasks: seq<Task>, vehicles: seq<Vehicle>, cfg: Config)
    returns (p: RoutingProblem)
    requires Buildable(depots, tasks, cfg)
    ensures p == Problem(depots, tasks, vehicles, cfg)
  {
    var horizonStart := ParseTime(cfg.horizonStart).value;
    var horizonEnd := ParseTime(cfg.horizonEnd).value;
    var locations := depots + seq(|tasks|, j requires 0 <= j < |tasks| => tasks[j].location);
    var serviceTimes := Repeat(|depots|, 0) + seq(|tasks|, j requires 0 <= j < |tasks| => ServiceOf(tasks[j], cfg.serviceDefault));
    var demands := Repeat(|depots|, 0) + seq(|tasks|, j requires 0 <= j < |tasks| => tasks[j].size);
    var windows: seq<TimeRange> := [];
    for d := 0 to |depots|
      invariant windows == Repeat(d, TimeRange(horizonStart, horizonEnd))
    {
      windows := windows + [TimeRange(horizonStart, horizonEnd)];
    }
    for j := 0 to |tasks|
      invariant windows == NodeWindows(|depots|, tasks[..j], Horizon(cfg))
    {
      var t := tasks[j];
      assert t in tasks;
      var ws, we;
      if t.window.Some? {
        ws := ParseTime(t.window.value.start).value;
        we := ParseTime(t.window.value.end).value;
      } else {
        ws, we := horizonStart, horizonEnd;
      }
      windows := windows + [TimeRange(ws, we)];
      assert tasks[..j + 1] == tasks[..j] + [t];
    }
    assert tasks[..|tasks|] == tasks;
    var starts := RoundRobin(|vehicles|, |depots|);
    var ends := RoundRobin(|vehicles|, |depots|);
    var capacities := seq(|vehicles|, i requires 0 <= i < |vehicles| => vehicles[i].capacity);
    var droppable: seq<nat> := [];
    for node := |depots| to |locations|
      invariant droppable == TaskNodes(|depots|, node - |depots|)
    {
      droppable := droppable + [node];
    }
    p := RoutingProblem(|depots|, locations, serviceTimes, demands, windows, starts, ends, capacities,
                        TimeRange(horizonStart, horizonEnd), droppable);
  }

  // ---------------------------------------------------------------------------
  // The solver's answer

  /** The routing index manager: which node each index stands for, the index
      of each node, and each vehicle's start and end index. */
  datatype IndexManager = IndexManager(
    indexToNode: seq<nat>,
    nodeToIndex: seq<nat>,
    startIndex: seq<nat>,
    endIndex: seq<nat>)

  /** An assignment: the successor of every index and the Time and Distance
      dimensions' cumulative values at every index. */
  datatype Assignment = Assignment(next: seq<nat>, timeCumul: seq<nat>, distCumul: seq<nat>)

  predicate IsEnd(mgr: IndexManager, i: nat)
  {
    i in mgr.endIndex
  }

  predicate InRange(mgr: IndexManager, a: Assignment, i: nat)
  {
    i < |a.next| && i < |a.timeCumul| && i < |mgr.indexToNode|
  }

  /** The indices visited from `i` up to, but not including, an end index,
      following successors; `None` if the successors do not reach an end
      within `fuel` steps. */
  function Walk(mgr: IndexManager, a: Assignment, i: nat, fuel: nat): Option<seq<nat>>
    decreases fuel
  {
    if IsEnd(mgr, i) then Some([])
    else if fuel == 0 || !InRange(mgr, a, i) then None
    else match Walk(mgr, a, a.next[i], fuel - 1)
      case None => None
      case Some(rest) => Some([i] + rest)
  }

  predicate WalkInRangeOf(mgr: IndexManager, a: Assignment, i: nat, fuel: nat)
    requires Walk(mgr, a, i, fuel).Some?
  {
    var path := Walk(mgr, a, i, fuel).value;
    forall k :: 0 <= k < |path| ==> InRange(mgr, a, path[k]) && !IsEnd(mgr, path[k])
  }

  /** Every index a walk visits is in range and not an end index. */
  lemma {:induction false} WalkInRange(mgr: IndexManager, a: Assignment, i: nat, fuel: nat)
    requires Walk(mgr, a, i, fuel).Some?
    ensures WalkInRangeOf(mgr, a, i, fuel)
    decreases fuel
  {
    if !IsEnd(mgr, i) {
      WalkInRange(mgr, a, a.next[i], fuel - 1);
    }
  }

  /** What the solver promises about an answer: the manager covers every
      vehicle and node, and every vehicle's successors lead from its start to
      an end index ... */
  predicate Covers(depotCount: nat, taskCount: nat, vehicleCount: nat, mgr: IndexManager, a: Assignment)
  {
    && |mgr.startIndex| == vehicleCount && |mgr.endIndex| == vehicleCount
    && (forall v :: 0 <= v < vehicleCount ==> mgr.startIndex[v] < |a.timeCumul| && mgr.endIndex[v] < |a.timeCumul|)
    && (forall i :: 0 <= i < |mgr.indexToNode| ==> mgr.indexToNode[i] < depotCount + taskCount)
    && (forall v :: 0 <= v < vehicleCount ==> Walk(mgr, a, mgr.startIndex[v], |a.next|).Some?)
  }

  /** ... and each task node has exactly one index. */
  predicate TaskIndexed(depotCount: nat, taskCount: nat, mgr: IndexManager, a: Assignment)
  {
    && |mgr.nodeToIndex| == depotCount + taskCount
    && (forall n :: depotCount <= n < depotCount + taskCount ==>
          InRange(mgr, a, mgr.nodeToIndex[n]) && mgr.indexToNode[mgr.nodeToIndex[n]] == n)
    && (forall i :: 0 <= i < |mgr.indexToNode| && depotCount <= mgr.indexToNode[i] < |mgr.nodeToIndex| ==>
          mgr.nodeToIndex[mgr.indexToNode[i]] == i)
  }

  predicate Fits(depotCount: nat, taskCount: nat, vehicleCount: nat, mgr: IndexManager, a: Assignment)
  {
    Covers(depotCount, taskCount, vehicleCount, mgr, a) && TaskIndexed(depotCount, taskCount, mgr, a)
  }

  // ---------------------------------------------------------------------------
  // Reading the answer back

  /** The indices of `path` that stand for task nodes, in order. */
  function TaskVisits(path: seq<nat>, mgr: IndexManager, a: Assignment, depotCount: nat): (r: seq<nat>)
    requires forall k :: 0 <= k < |path| ==> InRange(mgr, a, path[k])
    ensures forall k :: 0 <= k < |r| ==> InRange(mgr, a, r[k]) && mgr.indexToNode[r[k]] >= depotCount
  {
    if path == [] then []
    else
      assert InRange(mgr, a, path[0]);
      (if mgr.indexToNode[path[0]] >= depotCount then [path[0]] else [])
         + TaskVisits(path[1..], mgr, a, depotCount)
  }

  /** The task visits are exactly the path's task indices. */
  lemma {:induction false} TaskVisitsMembers(path: seq<nat>, mgr: IndexManager, a: Assignment, depotCount: nat)
    requires forall k :: 0 <= k < |path| ==> InRange(mgr, a, path[k])
    ensures forall x :: x in TaskVisits(path, mgr, a, depotCount) <==> x in path && mgr.indexToNode[x] >= depotCount
  {
    if path != [] {
      TaskVisitsMembers(path[1..], mgr, a, depotCount);
      assert path == [path[0]] + path[1..];
    }
  }

  /** Visited task indices the extraction can read: known to the manager,
      standing for a task node, with a time value. */
  predicate Readable(visits: seq<nat>, mgr: IndexManager, a: Assignment, depotCount: nat, taskCount: nat)
  {
    forall k :: 0 <= k < |visits| ==>
      visits[k] < |mgr.indexToNode| && visits[k] < |a.timeCumul|
      && depotCount <= mgr.indexToNode[visits[k]] < depotCount + taskCount
  }

  function VisitIds(visits: seq<nat>, tasks: seq<Task>, mgr: IndexManager, a: Assignment, depotCount: nat): seq<string>
    requires Readable(visits, mgr, a, depotCount, |tasks|)
  {
    seq(|visits|, k requires 0 <= k < |visits| => tasks[mgr.indexToNode[visits[k]] - depotCount].id)
  }

  function VisitEtas(visits: seq<nat>, a: Assignment): seq<string>
    requires forall k :: 0 <= k < |visits| ==> visits[k] < |a.timeCumul|
  {
    seq(|visits|, k requires 0 <= k < |visits| => FormatTime(a.timeCumul[visits[k]]))
  }

  /** The task indices on vehicle `v`'s route. */
  function RouteVisits(depotCount: nat, taskCount: nat, vehicleCount: nat, mgr: IndexManager, a: Assignment, v: nat): (r: seq<nat>)
    requires Covers(depotCount, taskCount, vehicleCount, mgr, a) && v < vehicleCount
    ensures Readable(r, mgr, a, depotCount, taskCount)
  {
    var path := Walk(mgr, a, mgr.startIndex[v], |a.next|).value;
    WalkInRange(mgr, a, mgr.startIndex[v], |a.next|);
    TaskVisits(path, mgr, a, depotCount)
  }

  /** Vehicle `v`'s entry in the plan. */
  function RouteOf(depotCount: nat, tasks: seq<Task>, vehicles: seq<Vehicle>, mgr: IndexManager, a: Assignment, v: nat): VehiclePlan
    requires Covers(depotCount, |tasks|, |vehicles|, mgr, a) && v < |vehicles|
  {
    var visits := RouteVisits(depotCount, |tasks|, |vehicles|, mgr, a, v);
    VehiclePlan(vehicles[v].id, VisitIds(visits, tasks, mgr, a, depotCount), VisitEtas(visits, a),
                a.timeCumul[mgr.endIndex[v]] as int - a.timeCumul[mgr.startIndex[v]])
  }

  function Routes(depotCount: nat, tasks: seq<Task>, vehicles: seq<Vehicle>, mgr: IndexManager, a: Assignment): seq<VehiclePlan>
    requires Covers(depotCount, |tasks|, |vehicles|, mgr, a)
  {
    seq(|vehicles|, v requires 0 <= v < |vehicles| => RouteOf(depotCount, tasks, vehicles, mgr, a, v))
  }

  /** Task `j` was dropped: its index is its own successor. */
  predicate IsDropped(depotCount: nat, taskCount: nat, mgr: IndexManager, a: Assignment, j: nat)
    requires |mgr.nodeToIndex| == depotCount + taskCount && j < taskCount
    requires mgr.nodeToIndex[depotCount + j] < |a.next|
  {
    a.next[mgr.nodeToIndex[depotCount + j]] == mgr.nodeToIndex[depotCount + j]
  }

  /** The ids of the dropped tasks among the first `count`, in input order. */
  function DroppedIds(depotCount: nat, tasks: seq<Task>, mgr: IndexManager, a: Assignment, count: nat): seq<string>
    requires count <= |tasks| && |mgr.nodeToIndex| == depotCount + |tasks|
    requires forall n :: depotCount <= n < depotCount + |tasks| ==> mgr.nodeToIndex[n] < |a.next|
  {
    if count == 0 then []
    else DroppedIds(depotCount, tasks, mgr, a, count - 1)
         + (if IsDropped(depotCount, |tasks|, mgr, a, count - 1) then [tasks[count - 1].id] else [])
  }

  /** The plan `solve_plan_ortools` returns for the solver's answer. */
  function ExtractPlan(depots: seq<Coord>, tasks: seq<Task>, vehicles: seq<Vehicle>, mgr: IndexManager,
                       answer: Option<Assignment>): Plan
    requires |depots| >= 1
    requires answer.Some? ==> Fits(|depots|, |tasks|, |vehicles|, mgr, answer.value)
  {
    match answer
    case None => Plan(depots[0], [], Sort(Ids(tasks)), 0)
    case Some(a) =>
      var routes := Routes(|depots|, tasks, vehicles, mgr, a);
      Plan(depots[0], routes, Sort(DroppedIds(|depots|, tasks, mgr, a, |tasks|)), SumMinutes(routes))
  }

  // ---------------------------------------------------------------------------
  // Properties of the extracted plan

  /** Without a solution the plan has no routes at all (not one empty route
      per vehicle), every task unscheduled in sorted order, objective 0; it
      still accounts for every task. */
  lemma NoSolutionPlan(depots: seq<Coord>, tasks: seq<Task>, vehicles: seq<Vehicle>, mgr: IndexManager)
    requires |depots| >= 1
    ensures var plan := ExtractPlan(depots, tasks, vehicles, mgr, None);
      && plan.depot == depots[0]
      && plan.vehiclePlans == []
      && Sorted(plan.unscheduled) && multiset(plan.unscheduled) == multiset(Ids(tasks))
      && plan.objectiveMinutes == 0
      && Conserves(tasks, plan)
  {
  }

  /** The plan read from an answer: the first depot, the routes, the sorted
      dropped ids and the summed route durations. */
  lemma ExtractedParts(depots: seq<Coord>, tasks: seq<Task>, vehicles: seq<Vehicle>, mgr: IndexManager, a: Assignment)
    requires |depots| >= 1 && Fits(|depots|, |tasks|, |vehicles|, mgr, a)
    ensures var plan := ExtractPlan(depots, tasks, vehicles, mgr, Some(a));
      && plan.depot == depots[0]
      && plan.vehiclePlans == Routes(|depots|, tasks, vehicles, mgr, a)
      && plan.unscheduled == Sort(DroppedIds(|depots|, tasks, mgr, a, |tasks|))
      && plan.objectiveMinutes == SumMinutes(plan.vehiclePlans)
  {
  }

  /** Shape: one route per vehicle in input order; on each, one ETA per task,
      each the formatted time value at that task's index, which parses back
      to that value; and the task is the one the visited node stands for. */
  lemma ExtractedShape(depotCount: nat, tasks: seq<Task>, vehicles: seq<Vehicle>, mgr: IndexManager, a: Assignment)
    requires Covers(depotCount, |tasks|, |vehicles|, mgr, a)
    ensures var routes := Routes(depotCount, tasks, vehicles, mgr, a);
      && |routes| == |vehicles|
      && forall v :: 0 <= v < |vehicles| ==>
           RouteShape(routes[v], RouteVisits(depotCount, |tasks|, |vehicles|, mgr, a, v), tasks, mgr, a, depotCount, vehicles[v])
  {
    var routes := Routes(depotCount, tasks, vehicles, mgr, a);
    forall v | 0 <= v < |vehicles|
      ensures RouteShape(routes[v], RouteVisits(depotCount, |tasks|, |vehicles|, mgr, a, v), tasks, mgr, a, depotCount, vehicles[v])
    {
      assert routes[v] == RouteOf(depotCount, tasks, vehicles, mgr, a, v);
      RouteOfShape(depotCount, tasks, vehicles, mgr, a, v);
    }
  }

  lemma RouteOfShape(depotCount: nat, tasks: seq<Task>, vehicles: seq<Vehicle>, mgr: IndexManager, a: Assignment, v: nat)
    requires Covers(depotCount, |tasks|, |vehicles|, mgr, a) && v < |vehicles|
    ensures RouteShape(RouteOf(depotCount, tasks, vehicles, mgr, a, v), RouteVisits(depotCount, |tasks|, |vehicles|, mgr, a, v),
                       tasks, mgr, a, depotCount, vehicles[v])
  {
    var visits := RouteVisits(depotCount, |tasks|, |vehicles|, mgr, a, v);
    var route := RouteOf(depotCount, tasks, vehicles, mgr, a, v);
    assert route == VehiclePlan(vehicles[v].id, VisitIds(visits, tasks, mgr, a, depotCount), VisitEtas(visits, a), route.totalMinutes);
    BuiltRouteShape(visits, tasks, mgr, a, depotCount, vehicles[v], route.totalMinutes);
  }

  /** A route entry built from the visits has their shape, whatever its
      duration. */
  lemma BuiltRouteShape(visits: seq<nat>, tasks: seq<Task>, mgr: IndexManager, a: Assignment, depotCount: nat,
                        vehicle: Vehicle, minutes: int)
    requires Readable(visits, mgr, a, depotCount, |tasks|)
    ensures RouteShape(VehiclePlan(vehicle.id, VisitIds(visits, tasks, mgr, a, depotCount), VisitEtas(visits, a), minutes),
                       visits, tasks, mgr, a, depotCount, vehicle)
  {
    EtasParseBack(visits, a);
    IdsReadBack(visits, tasks, mgr, a, depotCount);
  }

  /** A route entry built from `visits`: its vehicle, one id and one ETA per
      visit, the id of the task the visit stands for and an ETA that parses
      back to the visit's time value. */
  predicate RouteShape(route: VehiclePlan, visits: seq<nat>, tasks: seq<Task>, mgr: IndexManager, a: Assignment,
                       depotCount: nat, vehicle: Vehicle)
    requires Readable(visits, mgr, a, depotCount, |tasks|)
  {
    && route.vehicleId == vehicle.id
    && |route.tasksOrder| == |route.eta| == |visits|
    && EtasRead(route.eta, visits, a)
    && IdsRead(route.tasksOrder, visits, tasks, mgr, a, depotCount)
  }

  /** Each id is that of the task its visit stands for. */
  predicate IdsRead(ids: seq<string>, visits: seq<nat>, tasks: seq<Task>, mgr: IndexManager, a: Assignment, depotCount: nat)
    requires |ids| == |visits| && Readable(visits, mgr, a, depotCount, |tasks|)
  {
    forall k :: 0 <= k < |visits| ==> ids[k] == tasks[mgr.indexToNode[visits[k]] - depotCount].id
  }

  lemma IdsReadBack(visits: seq<nat>, tasks: seq<Task>, mgr: IndexManager, a: Assignment, depotCount: nat)
    requires Readable(visits, mgr, a, depotCount, |tasks|)
    ensures |VisitIds(visits, tasks, mgr, a, depotCount)| == |visits|
    ensures IdsRead(VisitIds(visits, tasks, mgr, a, depotCount), visits, tasks, mgr, a, depotCount)
  {
    var ids := VisitIds(visits, tasks, mgr, a, depotCount);
    forall k | 0 <= k < |visits| ensures ids[k] == tasks[mgr.indexToNode[visits[k]] - depotCount].id {
      assert visits[k] < |mgr.indexToNode| && depotCount <= mgr.indexToNode[visits[k]] < depotCount + |tasks|;
    }
  }

  /** Each ETA parses back to the time value at its visit. */
  predicate EtasRead(etas: seq<string>, visits: seq<nat>, a: Assignment)
    requires |etas| == |visits|
    requires forall k :: 0 <= k < |visits| ==> visits[k] < |a.timeCumul|
  {
    forall k :: 0 <= k < |visits| ==> ParseTime(etas[k]) == Some(a.timeCumul[visits[k]])
  }

  lemma EtasParseBack(visits: seq<nat>, a: Assignment)
    requires forall k :: 0 <= k < |visits| ==> visits[k] < |a.timeCumul|
    ensures EtasRead(VisitEtas(visits, a), visits, a)
  {
    forall k | 0 <= k < |visits| ensures ParseTime(VisitEtas(visits, a)[k]) == Some(a.timeCumul[visits[k]]) {
      ParseFormat(a.timeCumul[visits[k]]);
    }
  }

  /** Unscheduled: an id is unscheduled exactly when it belongs to a task
      whose index is its own successor; the list is sorted and lists each
      dropped task once. */
  lemma DroppedExactly(depots: seq<Coord>, tasks: seq<Task>, vehicles: seq<Vehicle>, mgr: IndexManager, a: Assignment)
    requires |depots| >= 1 && Fits(|depots|, |tasks|, |vehicles|, mgr, a)
    ensures var plan := ExtractPlan(depots, tasks, vehicles, mgr, Some(a));
      && Sorted(plan.unscheduled)
      && multiset(plan.unscheduled) == multiset(DroppedIds(|depots|, tasks, mgr, a, |tasks|))
      && forall x :: x in plan.unscheduled <==>
           exists j :: 0 <= j < |tasks| && IsDropped(|depots|, |tasks|, mgr, a, j) && tasks[j].id == x
  {
    var nd := |depots|;
    var plan := ExtractPlan(depots, tasks, vehicles, mgr, Some(a));
    DroppedIdsMembers(nd, tasks, mgr, a, |tasks|);
    forall x ensures x in plan.unscheduled <==> x in DroppedIds(nd, tasks, mgr, a, |tasks|) {
      assert x in plan.unscheduled <==> x in multiset(plan.unscheduled);
    }
  }

  lemma {:induction false} DroppedIdsMembers(depotCount: nat, tasks: seq<Task>, mgr: IndexManager, a: Assignment, count: nat)
    requires count <= |tasks| && |mgr.nodeToIndex| == depotCount + |tasks|
    requires forall n :: depotCount <= n < depotCount + |tasks| ==> mgr.nodeToIndex[n] < |a.next|
    ensures forall x :: x in DroppedIds(depotCount, tasks, mgr, a, count) <==>
      exists j :: 0 <= j < count && IsDropped(depotCount, |tasks|, mgr, a, j) && tasks[j].id == x
  {
    if count > 0 {
      DroppedIdsMembers(depotCount, tasks, mgr, a, count - 1);
    }
  }

  /** A walk that reaches an end never passes a self-loop: an index that is
      its own successor would be walked forever. */
  lemma {:induction false} SelfLoopNeverEnds(mgr: IndexManager, a: Assignment, i: nat, fuel: nat)
    requires !IsEnd(mgr, i) && InRange(mgr, a, i) && a.next[i] == i
    ensures Walk(mgr, a, i, fuel).None?
    decreases fuel
  {
    if fuel > 0 {
      SelfLoopNeverEnds(mgr, a, i, fuel - 1);
    }
  }

  lemma {:induction false} WalkHasNoSelfLoop(mgr: IndexManager, a: Assignment, i: nat, fuel: nat)
    requires Walk(mgr, a, i, fuel).Some?
    ensures forall x :: x in Walk(mgr, a, i, fuel).value ==> x < |a.next| && a.next[x] != x
    decreases fuel
  {
    WalkInRange(mgr, a, i, fuel);
    if !IsEnd(mgr, i) {
      WalkHasNoSelfLoop(mgr, a, a.next[i], fuel - 1);
      if a.next[i] == i {
        SelfLoopNeverEnds(mgr, a, i, fuel);
      }
    }
  }

  /** A task on a route is not dropped, so with distinct task ids no id is
      both on a route and unscheduled. */
  lemma RoutedIsNotDropped(depots: seq<Coord>, tasks: seq<Task>, vehicles: seq<Vehicle>, mgr: IndexManager, a: Assignment)
    requires |depots| >= 1 && Fits(|depots|, |tasks|, |vehicles|, mgr, a)
    requires Distinct(Ids(tasks))
    ensures var plan := ExtractPlan(depots, tasks, vehicles, mgr, Some(a));
      forall x :: x in AssignedIds(plan.vehiclePlans) ==> x !in plan.unscheduled
  {
    var plan := ExtractPlan(depots, tasks, vehicles, mgr, Some(a));
    ExtractedParts(depots, tasks, vehicles, mgr, a);
    forall x | x in AssignedIds(plan.vehiclePlans) ensures x !in plan.unscheduled {
      RoutedIdNotDropped(|depots|, tasks, vehicles, mgr, a, x);
      assert x in plan.unscheduled <==> x in multiset(plan.unscheduled);
    }
  }

  lemma RoutedIdNotDropped(depotCount: nat, tasks: seq<Task>, vehicles: seq<Vehicle>, mgr: IndexManager, a: Assignment, x: string)
    requires Fits(depotCount, |tasks|, |vehicles|, mgr, a)
    requires Distinct(Ids(tasks))
    requires x in AssignedIds(Routes(depotCount, tasks, vehicles, mgr, a))
    ensures x !in DroppedIds(depotCount, tasks, mgr, a, |tasks|)
  {
    var v, k := VisitOfId(depotCount, tasks, vehicles, mgr, a, x);
    VisitNotDropped(depotCount, |tasks|, |vehicles|, mgr, a, v, k);
    var j := mgr.indexToNode[RouteVisits(depotCount, |tasks|, |vehicles|, mgr, a, v)[k]] - depotCount;
    KeptNotListed(depotCount, tasks, mgr, a, j);
  }

  /** With distinct task ids, a task that is not dropped is not listed among
      the dropped ids. */
  lemma KeptNotListed(depotCount: nat, tasks: seq<Task>, mgr: IndexManager, a: Assignment, j: nat)
    requires |mgr.nodeToIndex| == depotCount + |tasks|
    requires forall n :: depotCount <= n < depotCount + |tasks| ==> mgr.nodeToIndex[n] < |a.next|
    requires Distinct(Ids(tasks)) && j < |tasks| && !IsDropped(depotCount, |tasks|, mgr, a, j)
    ensures tasks[j].id !in DroppedIds(depotCount, tasks, mgr, a, |tasks|)
  {
    DroppedIdsMembers(depotCount, tasks, mgr, a, |tasks|);
    if tasks[j].id in DroppedIds(depotCount, tasks, mgr, a, |tasks|) {
      var j' :| 0 <= j' < |tasks| && IsDropped(depotCount, |tasks|, mgr, a, j') && tasks[j'].id == tasks[j].id;
      DistinctIndices(tasks, j, j');
    }
  }

  /** An id on some route is the id of the task some route visit stands for. */
  lemma VisitOfId(depotCount: nat, tasks: seq<Task>, vehicles: seq<Vehicle>, mgr: IndexManager, a: Assignment, x: string)
    returns (v: nat, k: nat)
    requires Covers(depotCount, |tasks|, |vehicles|, mgr, a)
    requires x in AssignedIds(Routes(depotCount, tasks, vehicles, mgr, a))
    ensures v < |vehicles| && k < |RouteVisits(depotCount, |tasks|, |vehicles|, mgr, a, v)|
    ensures tasks[mgr.indexToNode[RouteVisits(depotCount, |tasks|, |vehicles|, mgr, a, v)[k]] - depotCount].id == x
  {
    var routes := Routes(depotCount, tasks, vehicles, mgr, a);
    v := InAssignedIds(routes, x);
    var visits := RouteVisits(depotCount, |tasks|, |vehicles|, mgr, a, v);
    RouteIds(depotCount, tasks, vehicles, mgr, a, v);
    k :| 0 <= k < |visits| && routes[v].tasksOrder[k] == x;
  }

  /** Vehicle `v`'s entry lists, for each task visit, the id of the task it
      stands for. */
  lemma RouteIds(depotCount: nat, tasks: seq<Task>, vehicles: seq<Vehicle>, mgr: IndexManager, a: Assignment, v: nat)
    requires Covers(depotCount, |tasks|, |vehicles|, mgr, a) && v < |vehicles|
    ensures var visits := RouteVisits(depotCount, |tasks|, |vehicles|, mgr, a, v);
      && |Routes(depotCount, tasks, vehicles, mgr, a)| == |vehicles|
      && |Routes(depotCount, tasks, vehicles, mgr, a)[v].tasksOrder| == |visits|
      && forall k :: 0 <= k < |visits| ==>
           Routes(depotCount, tasks, vehicles, mgr, a)[v].tasksOrder[k] == tasks[mgr.indexToNode[visits[k]] - depotCount].id
  {
    var visits := RouteVisits(depotCount, |tasks|, |vehicles|, mgr, a, v);
    var route := RouteOf(depotCount, tasks, vehicles, mgr, a, v);
    assert Routes(depotCount, tasks, vehicles, mgr, a)[v] == route;
    assert route.tasksOrder == VisitIds(visits, tasks, mgr, a, depotCount);
    IdsReadBack(visits, tasks, mgr, a, depotCount);
  }

  /** The `k`-th task visit on route `v` stands for a task that is not
      dropped. */
  lemma VisitNotDropped(depotCount: nat, taskCount: nat, vehicleCount: nat, mgr: IndexManager, a: Assignment, v: nat, k: nat)
    requires Fits(depotCount, taskCount, vehicleCount, mgr, a) && v < vehicleCount
    requires k < |RouteVisits(depotCount, taskCount, vehicleCount, mgr, a, v)|
    ensures var i := RouteVisits(depotCount, taskCount, vehicleCount, mgr, a, v)[k];
      && depotCount <= mgr.indexToNode[i] < depotCount + taskCount
      && mgr.nodeToIndex[mgr.indexToNode[i]] == i
      && !IsDropped(depotCount, taskCount, mgr, a, mgr.indexToNode[i] - depotCount)
  {
    var path := Walk(mgr, a, mgr.startIndex[v], |a.next|).value;
    var i := RouteVisits(depotCount, taskCount, vehicleCount, mgr, a, v)[k];
    WalkInRange(mgr, a, mgr.startIndex[v], |a.next|);
    TaskVisitsMembers(path, mgr, a, depotCount);
    WalkHasNoSelfLoop(mgr, a, mgr.startIndex[v], |a.next|);
    assert i in path;
  }

  lemma InAssignedIds(plans: seq<VehiclePlan>, x: string) returns (v: nat)
    requires x in AssignedIds(plans)
    ensures v < |plans| && x in plans[v].tasksOrder
  {
    if x in plans[0].tasksOrder {
      v := 0;
    } else {
      var w := InAssignedIds(plans[1..], x);
      v := w + 1;
    }
  }

  /** Two tasks with the same id are the same task when ids are distinct. */
  lemma DistinctIndices(tasks: seq<Task>, j: nat, j': nat)
    requires Distinct(Ids(tasks)) && j < |tasks| && j' < |tasks|
    requires tasks[j].id == tasks[j'].id
    ensures j == j'
  {
    if j < j' {
      RepeatedElement(Ids(tasks), j, j');
    } else if j' < j {
      RepeatedElement(Ids(tasks), j', j);
    }
  }

  /** An element found at two positions occurs at least twice. */
  lemma RepeatedElement(s: seq<string>, lo: nat, hi: nat)
    requires lo < hi < |s| && s[lo] == s[hi]
    ensures multiset(s)[s[hi]] >= 2
  {
    assert s == s[..hi] + s[hi..];
    assert s[lo] in s[..hi] && s[hi] in s[hi..];
    assert multiset(s) == multiset(s[..hi]) + multiset(s[hi..]);
  }

  /** The time constraints the model imposes, as met by an answer: every task
      index's time lies in its node's window, and every vehicle starts exactly
      at the horizon start and ends within the horizon. */
  predicate TimeFeasible(p: RoutingProblem, mgr: IndexManager, a: Assignment, vehicleCount: nat)
    requires |p.windows| >= p.depotCount
    requires Fits(p.depotCount, |p.windows| - p.depotCount, vehicleCount, mgr, a)
  {
    && (forall n :: p.depotCount <= n < |p.windows| ==>
          p.windows[n].lo <= a.timeCumul[mgr.nodeToIndex[n]] <= p.windows[n].hi)
    && (forall v :: 0 <= v < vehicleCount ==>
          a.timeCumul[mgr.startIndex[v]] == p.horizon.lo
          && p.horizon.lo <= a.timeCumul[mgr.endIndex[v]] <= p.horizon.hi)
  }

  /** For an answer that meets the model's time constraints, every ETA of a
      windowed task lies within that task's window (and of any task within the
      horizon), every route's duration is not negative and neither is the
      objective. */
  lemma FeasibleAnswerRespectsWindows(depots: seq<Coord>, tasks: seq<Task>, vehicles: seq<Vehicle>, cfg: Config,
                                      mgr: IndexManager, a: Assignment)
    requires Buildable(depots, tasks, cfg)
    requires Fits(|depots|, |tasks|, |vehicles|, mgr, a)
    requires TimeFeasible(Problem(depots, tasks, vehicles, cfg), mgr, a, |vehicles|)
    ensures var plan := ExtractPlan(depots, tasks, vehicles, mgr, Some(a));
      && (forall v :: 0 <= v < |vehicles| ==> plan.vehiclePlans[v].totalMinutes >= 0)
      && plan.objectiveMinutes >= 0
      && forall v, k :: 0 <= v < |vehicles| && 0 <= k < |RouteVisits(|depots|, |tasks|, |vehicles|, mgr, a, v)| ==>
           VisitInWindow(tasks, cfg, mgr, a, |depots|, RouteVisits(|depots|, |tasks|, |vehicles|, mgr, a, v)[k])
  {
    var plan := ExtractPlan(depots, tasks, vehicles, mgr, Some(a));
    ExtractedParts(depots, tasks, vehicles, mgr, a);
    forall v, k | 0 <= v < |vehicles| && 0 <= k < |RouteVisits(|depots|, |tasks|, |vehicles|, mgr, a, v)|
      ensures VisitInWindow(tasks, cfg, mgr, a, |depots|, RouteVisits(|depots|, |tasks|, |vehicles|, mgr, a, v)[k])
    {
      FeasibleVisit(depots, tasks, vehicles, cfg, mgr, a, RouteVisits(|depots|, |tasks|, |vehicles|, mgr, a, v)[k]);
    }
    forall v | 0 <= v < |vehicles| ensures plan.vehiclePlans[v].totalMinutes >= 0 {
      assert plan.vehiclePlans[v] == RouteOf(|depots|, tasks, vehicles, mgr, a, v);
    }
    SumOfRoutes(plan.vehiclePlans);
  }

  /** The time value at task index `i` lies in its task's window, or in the
      horizon when the task has none. */
  predicate VisitInWindow(tasks: seq<Task>, cfg: Config, mgr: IndexManager, a: Assignment, depotCount: nat, i: nat)
  {
    && i < |mgr.indexToNode| && i < |a.timeCumul|
    && depotCount <= mgr.indexToNode[i] < depotCount + |tasks|
    && WindowParses(tasks[mgr.indexToNode[i] - depotCount])
    && ParseTime(cfg.horizonStart).Some? && ParseTime(cfg.horizonEnd).Some?
    && var t := tasks[mgr.indexToNode[i] - depotCount];
       && (t.window.Some? ==> WindowStart(t) <= a.timeCumul[i] <= WindowEnd(t))
       && (t.window.None? ==> Horizon(cfg).lo <= a.timeCumul[i] <= Horizon(cfg).hi)
  }

  lemma FeasibleVisit(depots: seq<Coord>, tasks: seq<Task>, vehicles: seq<Vehicle>, cfg: Config,
                      mgr: IndexManager, a: Assignment, i: nat)
    requires Buildable(depots, tasks, cfg)
    requires Fits(|depots|, |tasks|, |vehicles|, mgr, a)
    requires TimeFeasible(Problem(depots, tasks, vehicles, cfg), mgr, a, |vehicles|)
    requires i < |mgr.indexToNode| && i < |a.timeCumul|
    requires |depots| <= mgr.indexToNode[i] < |depots| + |tasks|
    ensures VisitInWindow(tasks, cfg, mgr, a, |depots|, i)
  {
    var p := Problem(depots, tasks, vehicles, cfg);
    ProblemLayout(depots, tasks, vehicles, cfg);
    var n := mgr.indexToNode[i];
    assert mgr.nodeToIndex[n] == i;
    assert tasks[n - |depots|] in tasks;
    assert p.windows[|depots| + (n - |depots|)] == p.windows[n];
  }

  lemma {:induction false} SumOfRoutes(plans: seq<VehiclePlan>)
    requires forall v :: 0 <= v < |plans| ==> plans[v].totalMinutes >= 0
    ensures SumMinutes(plans) >= 0
  {
    if plans != [] {
      SumOfRoutes(plans[1..]);
    }
  }

  // ---------------------------------------------------------------------------
  // The imperative extraction

  /** One step of a walk that reaches an end. */
  lemma WalkStep(mgr: IndexManager, a: Assignment, i: nat, fuel: nat)
    requires !IsEnd(mgr, i) && Walk(mgr, a, i, fuel).Some?
    ensures fuel > 0 && InRange(mgr, a, i)
    ensures Walk(mgr, a, a.next[i], fuel - 1).Some?
    ensures Walk(mgr, a, i, fuel).value == [i] + Walk(mgr, a, a.next[i], fuel - 1).value
    ensures var rest := Walk(mgr, a, a.next[i], fuel - 1).value;
      forall k :: 0 <= k < |rest| ==> InRange(mgr, a, rest[k])
  {
    WalkInRange(mgr, a, a.next[i], fuel - 1);
  }

  lemma TaskVisitsCons(i: nat, rest: seq<nat>, mgr: IndexManager, a: Assignment, depotCount: nat)
    requires InRange(mgr, a, i) && forall k :: 0 <= k < |rest| ==> InRange(mgr, a, rest[k])
    ensures TaskVisits([i] + rest, mgr, a, depotCount)
         == (if mgr.indexToNode[i] >= depotCount then [i] else []) + TaskVisits(rest, mgr, a, depotCount)
  {
    assert ([i] + rest)[1..] == rest;
  }

  lemma VisitsSnoc(visits: seq<nat>, i: nat, tasks: seq<Task>, mgr: IndexManager, a: Assignment, depotCount: nat)
    requires Readable(visits, mgr, a, depotCount, |tasks|)
    requires i < |mgr.indexToNode| && i < |a.timeCumul|
    requires depotCount <= mgr.indexToNode[i] < depotCount + |tasks|
    ensures Readable(visits + [i], mgr, a, depotCount, |tasks|)
    ensures VisitIds(visits + [i], tasks, mgr, a, depotCount)
         == VisitIds(visits, tasks, mgr, a, depotCount) + [tasks[mgr.indexToNode[i] - depotCount].id]
    ensures VisitEtas(visits + [i], a) == VisitEtas(visits, a) + [FormatTime(a.timeCumul[i])]
  {
  }

  lemma ConcatAssoc<T>(x: seq<T>, y: seq<T>, z: seq<T>)
    ensures x + (y + z) == (x + y) + z
  {
  }

  /** The state of a route walk: the rest of the walk from `index` reaches an
      end, and the task indices seen so far followed by those still ahead
      make up the whole route. */
  predicate WalkState(depotCount: nat, taskCount: nat, mgr: IndexManager, a: Assignment,
                      index: nat, fuel: nat, path: seq<nat>, visited: seq<nat>, full: seq<nat>)
  {
    && Walk(mgr, a, index, fuel) == Some(path)
    && (forall k :: 0 <= k < |path| ==> InRange(mgr, a, path[k]))
    && Readable(visited, mgr, a, depotCount, taskCount)
    && visited + TaskVisits(path, mgr, a, depotCount) == full
  }

  /** The task indices newly seen when the walk passes `index`. */
  function Seen(mgr: IndexManager, depotCount: nat, index: nat): seq<nat>
    requires index < |mgr.indexToNode|
  {
    if mgr.indexToNode[index] >= depotCount then [index] else []
  }

  lemma WalkAdvance(depotCount: nat, taskCount: nat, mgr: IndexManager, a: Assignment,
                    index: nat, fuel: nat, path: seq<nat>, visited: seq<nat>, full: seq<nat>)
    requires WalkState(depotCount, taskCount, mgr, a, index, fuel, path, visited, full)
    requires !IsEnd(mgr, index)
    requires forall i :: 0 <= i < |mgr.indexToNode| ==> mgr.indexToNode[i] < depotCount + taskCount
    ensures fuel > 0 && InRange(mgr, a, index) && path == [index] + path[1..]
    ensures WalkState(depotCount, taskCount, mgr, a, a.next[index], fuel - 1, path[1..],
                      visited + Seen(mgr, depotCount, index), full)
  {
    WalkStep(mgr, a, index, fuel);
    var rest := path[1..];
    TaskVisitsCons(index, rest, mgr, a, depotCount);
    ConcatAssoc(visited, Seen(mgr, depotCount, index), TaskVisits(rest, mgr, a, depotCount));
  }

  /** The `while not routing.IsEnd(index)` loop: the ids and formatted
      times of the task indices on the walk from `start`. */
  method CollectVisits(depotCount: nat, tasks: seq<Task>, mgr: IndexManager, a: Assignment,
                       start: nat, ghost fuel0: nat)
    returns (order: seq<string>, etas: seq<string>)
    requires Walk(mgr, a, start, fuel0).Some?
    requires forall i :: 0 <= i < |mgr.indexToNode| ==> mgr.indexToNode[i] < depotCount + |tasks|
    ensures WalkInRangeOf(mgr, a, start, fuel0)
    ensures Readable(TaskVisits(Walk(mgr, a, start, fuel0).value, mgr, a, depotCount), mgr, a, depotCount, |tasks|)
    ensures var visits := TaskVisits(Walk(mgr, a, start, fuel0).value, mgr, a, depotCount);
      order == VisitIds(visits, tasks, mgr, a, depotCount) && etas == VisitEtas(visits, a)
  {
    var index := start;
    order, etas := [], [];
    ghost var fuel: nat := fuel0;
    ghost var path := Walk(mgr, a, index, fuel).value;
    WalkInRange(mgr, a, index, fuel);
    ghost var visited: seq<nat> := [];
    ghost var full := TaskVisits(path, mgr, a, depotCount);
    while !IsEnd(mgr, index)
      invariant WalkState(depotCount, |tasks|, mgr, a, index, fuel, path, visited, full)
      invariant order == VisitIds(visited, tasks, mgr, a, depotCount)
      invariant etas == VisitEtas(visited, a)
      decreases fuel
    {
      WalkAdvance(depotCount, |tasks|, mgr, a, index, fuel, path, visited, full);
      var node := mgr.indexToNode[index];
      if node >= depotCount {
        var taskIdx := node - depotCount;
        order := order + [tasks[taskIdx].id];
        var eta := a.timeCumul[index];
        etas := etas + [FormatTime(eta)];
        VisitsSnoc(visited, index, tasks, mgr, a, depotCount);
      } else {
        assert visited + Seen(mgr, depotCount, index) == visited;
      }
      visited := visited + Seen(mgr, depotCount, index);
      index := a.next[index];
      fuel := fuel - 1;
      path := path[1..];
    }
    assert path == [];
    assert visited == full;
  }

  /** One vehicle's route (lines 133-158). */
  method WalkRoute(depotCount: nat, tasks: seq<Task>, vehicles: seq<Vehicle>, mgr: IndexManager, a: Assignment, vid: nat)
    returns (route: VehiclePlan)
    requires Covers(depotCount, |tasks|, |vehicles|, mgr, a) && vid < |vehicles|
    ensures route == RouteOf(depotCount, tasks, vehicles, mgr, a, vid)
  {
    var order, etas := CollectVisits(depotCount, tasks, mgr, a, mgr.startIndex[vid], |a.next|);
    var endIndex := mgr.endIndex[vid];
    var routeTime := a.timeCumul[endIndex] as int - a.timeCumul[mgr.startIndex[vid]];
    route := VehiclePlan(vehicles[vid].id, order, etas, routeTime);
  }

  /** Reading the answer back (lines 121-172), proved to compute `ExtractPlan`. */
  method ReadAnswer(depots: seq<Coord>, tasks: seq<Task>, vehicles: seq<Vehicle>, mgr: IndexManager,
                    answer: Option<Assignment>)
    returns (plan: Plan)
    requires |depots| >= 1
    requires answer.Some? ==> Fits(|depots|, |tasks|, |vehicles|, mgr, answer.value)
    ensures plan == ExtractPlan(depots, tasks, vehicles, mgr, answer)
  {
    if answer.None? {
      return Plan(depots[0], [], Sort(Ids(tasks)), 0);
    }
    var a := answer.value;
    var plans: seq<VehiclePlan> := [];
    for vid := 0 to |vehicles|
      invariant plans == Routes(|depots|, tasks, vehicles, mgr, a)[..vid]
    {
      var route := WalkRoute(|depots|, tasks, vehicles, mgr, a, vid);
      plans := plans + [route];
    }
    var unscheduled: seq<string> := [];
    for taskIdx := 0 to |tasks|
      invariant unscheduled == DroppedIds(|depots|, tasks, mgr, a, taskIdx)
    {
      var node := |depots| + taskIdx;
      var index := mgr.nodeToIndex[node];
      if a.next[index] == index {
        unscheduled := unscheduled + [tasks[taskIdx].id];
      }
    }
    unscheduled := Sort(unscheduled);
    assert plans == Routes(|depots|, tasks, vehicles, mgr, a);
    var objective := SumMinutes(plans);
    plan := Plan(depots[0], plans, unscheduled, objective);
  }

  /** `solve_plan_ortools`: build the model, let the search answer, read the
      answer back. The search is a parameter: it returns the index manager
      and, unless it found nothing, an assignment fitting the model. */
  method SolvePlanOrTools(depots: seq<Coord>, tasks: seq<Task>, vehicles: seq<Vehicle>, cfg: Config,
                          search: RoutingProblem -> (IndexManager, Option<Assignment>))
    returns (plan: Plan)
    requires Buildable(depots, tasks, cfg)
    requires var (mgr, answer) := search(Problem(depots, tasks, vehicles, cfg));
      answer.Some? ==> Fits(|depots|, |tasks|, |vehicles|, mgr, answer.value)
    ensures var (mgr, answer) := search(Problem(depots, tasks, vehicles, cfg));
      plan == ExtractPlan(depots, tasks, vehicles, mgr, answer)
  {
    var p := BuildProblem(depots, tasks, vehicles, cfg);
    var (mgr, answer) := search(p);
    plan := ReadAnswer(depots, tasks, vehicles, mgr, answer);
  }
}
