# Route planning agent: a verified model of its core

This project models the core of a route-planning agent for field crews:
- It fetches the day's vehicles, crews and stops from an upstream API.
- It plans routes with a greedy heuristic, or with the OR-Tools routing model.
- It keeps the latest plan and a bounded history of plans, and publishes a plan through a retrying HTTP client.
- It exposes a small route API for creating, reading and deleting routes, and for submitting a whole day's schedule.

The modules follow the program's own files:

| module | file | models |
|---|---|---|
| `Wrappers` | wrappers.dfy | `Option`, `Result` and `Outcome` |
| `Strings` | strings.dfy | `int()` and `str()` on digit strings, `str.split`/`join`, Python's string order, `sorted()` on strings |
| `TimeFormat` | time_format.dfy | `_parse_time` and `_format_time` of the two planners |
| `PlanModel` | plan_model.dfy | tasks, vehicles, plans, the `config` values the planners read (as a parameter record), id conservation |
| `GreedySolver` | greedy_solver.dfy | `solve_plan` (planner/solver.py) |
| `OrToolsAdapter` | ortools_adapter.dfy | `solve_plan_ortools`: the model it builds and how it reads an answer back |
| `HttpClient` | http_client.dfy | `init_http_client`, `close_http_client`, `request` and its retry policy |
| `PlannerService` | planner_service.dfy | `build_today_plan`, `publish_plan`, `get_latest_plan` |
| `PlanHistory` | plan_history.dfy | `init_db`, `save_plan` and `get_recent_plans` over the `plans` table |
| `RouteSchemas` | route_schemas.dfy | the route schemas and the schedule's date injection |
| `RouteApi` | route_api.dfy | `_build_route_entity`, `get_route`, `create_route`, `delete_route`, `submit_schedule` |

Each loop of the source is an imperative method. Each method is proved to compute a pure specification function, and the properties are lemmas about that function. The module globals are classes, with one field per global:
- `_client`: `HttpClient.Client`;
- `_latest_plan`: `PlannerService.Planner`;
- `_conn` and the `plans` table: `PlanHistory.History`;
- the `routes` table: `RouteApi.RouteTable`.

Whatever the code reaches outside the core is a parameter:
- travel time between two coordinates;
- the OR-Tools search;
- the HTTP transport, as the attempt number mapped to a response or an error;
- whether a database commit succeeds;
- the three upstream fetches.

## Model

| member | source | states |
|---|---|---|
| Strings.Decimal | planner/solver.py:16 | `str(n)` writes decimal digits, a single digit exactly for n < 10, and no leading zero except for 0 itself |
| Strings.DecimalRoundTrip | planner/solver.py:10 | `int()` reads back what `str()` wrote: the same number |
| Strings.LeadingZero | planner/solver.py:10 | `int()` ignores a leading zero, as on "08" |
| Strings.Split | planner/solver.py:9 | `str.split(sep)` yields at least one piece, and no piece contains the separator |
| Strings.JoinSplit | planner/solver.py:9 | joining the pieces of a split with the separator gives back the original string |
| Strings.SplitJoin | planner/solver.py:9 | splitting a join of separator-free pieces gives back the pieces |
| Strings.StrLeTotal | planner/solver.py:67 | Python's string order compares any two strings |
| Strings.StrLeTrans | planner/solver.py:67 | Python's string order is transitive |
| Strings.StrLeAntisym | planner/solver.py:67 | two strings each at most the other are equal |
| Strings.Sort | planner/solver.py:67 | `sorted()` returns a sorted permutation of its input |
| Strings.SortedUnique | planner/solver_ortools.py:160-166 | two sorted lists with the same elements are equal, so sorting after the fact (line 166) and `sorted()` agree |
| TimeFormat.ParseFormat | planner/solver.py:8-16 | parsing a formatted minute count gives back that count |
| TimeFormat.FormatParse | planner/solver.py:8-16 | a two-digit "HH:MM" with minutes below 60 parses, and formats back to the same string |
| TimeFormat.FormatTwoDigits | planner/solver.py:13-16 | formatting HH * 60 + MM, for two-digit HH and MM below 60, writes "HH:MM" back |
| TimeFormat.ParseTwoDigitTime | planner/solver.py:8-10 | "HH:MM" parses to HH * 60 + MM |
| TimeFormat.Pad2 | planner/solver.py:16 | `{:02d}` writes decimal digits whose value is the number: exactly two for n < 10, otherwise as many as `str(n)` |
| PlanModel.IdsRemove | planner/solver.py:56 | `remaining.pop(idx)` removes exactly the popped task's id from the multiset of ids |
| PlanModel.ConservedIdsAreDistinct | tests/test_planner_service.py:41-45 | with distinct task ids, a plan that conserves the tasks has distinct routed ids and distinct unscheduled ids, no id is both, and routed plus unscheduled counts equal the task count |
| GreedySolver.ScanConserves | planner/solver.py:33-56 | within one vehicle's scan no task id is lost or duplicated: accepted plus remaining is the multiset it started with |
| GreedySolver.ScanKeepsCapacity | planner/solver.py:35-37 | after every acceptance the load so far fits the vehicle's capacity, and remaining capacity plus load is the capacity |
| GreedySolver.ScanKeepsWindows | planner/solver.py:40-47 | every accepted task with a window has its ETA inside it: waiting for the window to open, and skipping a task when the arrival is after its end |
| GreedySolver.ScanFollowsReplay | planner/solver.py:38-55 | the scan's clock, position and ETAs equal a replay of only the tasks it took: skipped tasks have no effect |
| GreedySolver.ReplayIsMonotone | planner/solver.py:38-54 | ETAs start at or after the horizon start, each ETA is at least the previous ETA plus that task's service time, and the final clock is the last ETA plus its service time |
| GreedySolver.RouteScanFacts | planner/solver.py:26-56 | one vehicle's finished scan keeps capacity and windows, follows its replay, and conserves task ids |
| GreedySolver.RunFacts | planner/solver.py:25-67 | the vehicle loop makes one scan per vehicle; every scan keeps the route facts; the routed ids plus those left over are exactly the input ids |
| GreedySolver.AssignedIdsOfRoutePlans | planner/solver.py:52-66 | the ids on the plan's routes are the ids the scans took, route after route |
| GreedySolver.GreedyConserves | planner/solver.py:19-76 | every input task id is on a route or unscheduled, as often as it occurs in the input, and routed plus unscheduled counts equal the task count |
| GreedySolver.GreedyShape | planner/solver.py:57-75 | one route per vehicle, in order and including empty ones; one ETA per task on each route; a route's duration is its final clock minus the horizon start and is not negative; the objective is the sum of the durations; the unscheduled ids are the leftovers, sorted |
| GreedySolver.GreedyRoutesFeasible | planner/solver.py:33-56 | on each route: the ids and ETAs are those of the tasks taken, each ETA string parses back to the arrival minute, the load after each acceptance is within capacity, a windowed task's ETA lies in its window, and consecutive ETAs are separated by at least the service time |
| GreedySolver.ScanFeasible | planner/solver.py:33-56 | on a finished scan the load after each acceptance fits the capacity, a windowed ETA lies in its window, every ETA is at or after the horizon start, and consecutive ETAs are separated by at least the service time |
| GreedySolver.RoutePlanReadsBack | planner/solver.py:50-66 | a route entry lists the ids of the tasks taken, and each ETA string parses back to its arrival minute |
| GreedySolver.SumOfNonNegative | planner/solver.py:69 | a sum of non-negative route durations is not negative |
| GreedySolver.ExamplePlan | tests/test_solver_basic.py:12-46 | the basic scenario: "a" and "b" are routed, "c" is unscheduled, and the objective is the first route's 65 minutes |
| GreedySolver.DriveRoute | planner/solver.py:26-57 | the inner `while` loop computes the vehicle's scan: ids, formatted ETAs, final clock, and the tasks left |
| GreedySolver.DriveAll | planner/solver.py:22-66 | the vehicle loop builds, vehicle by vehicle, the route entry of each scan over the tasks the earlier vehicles left, and ends with the tasks nobody took |
| GreedySolver.SolvePlan | planner/solver.py:19-76 | `solve_plan` computes the greedy plan, which conserves the input ids and has one route per vehicle |
| OrToolsAdapter.Repeat | planner/solver_ortools.py:39-42 | `[x] * n` has length n and holds x everywhere |
| OrToolsAdapter.ProblemLayout | planner/solver_ortools.py:38-53 | nodes are depots then tasks; a depot node has no service time, no demand and the horizon as its window; a task node has its location, its size, its service time (the default when missing or 0), and its own window or the horizon |
| OrToolsAdapter.ProblemVehiclesAndDrops | planner/solver_ortools.py:55-108 | vehicle i starts and ends at depot i mod the depot count, with its own capacity; exactly the task nodes, each once, can be dropped, with penalty 10000 |
| OrToolsAdapter.TransitFromNodes | planner/solver_ortools.py:69-76 | the time callback costs travel plus the service time of the node left: travel alone from a depot |
| OrToolsAdapter.BuildProblem | planner/solver_ortools.py:35-108 | the window and drop loops build exactly the model described above |
| OrToolsAdapter.WalkInRange | planner/solver_ortools.py:137-144 | every index a route walk visits is in range and is not an end index |
| OrToolsAdapter.TaskVisits | planner/solver_ortools.py:139-143 | the visits a route records stand for task nodes |
| OrToolsAdapter.TaskVisitsMembers | planner/solver_ortools.py:139 | a route's recorded visits are exactly the walked indices whose node is a task |
| OrToolsAdapter.RouteVisits | planner/solver_ortools.py:133-144 | each vehicle's recorded visits can be read back: known to the manager, a task node, with a time value |
| OrToolsAdapter.NoSolutionPlan | planner/solver_ortools.py:121-130 | without a solution there are no routes at all, every task id is unscheduled in sorted order, the objective is 0, and the plan still conserves the tasks |
| OrToolsAdapter.ExtractedShape | planner/solver_ortools.py:132-158 | one route per vehicle in order; each route has one id and one ETA per task visit; each id is the visited task's; each ETA parses back to the visit's time value |
| OrToolsAdapter.RouteOfShape | planner/solver_ortools.py:145-158 | one vehicle's route entry has that vehicle's id and the ids and ETAs of its visits |
| OrToolsAdapter.BuiltRouteShape | planner/solver_ortools.py:145-158 | a route entry built from a list of visits has one id and one ETA per visit, the visited task's id and an ETA that parses back to the visit's time value |
| OrToolsAdapter.EtasParseBack | planner/solver_ortools.py:142-143 | every formatted ETA parses back to the cumulative time it was formatted from |
| OrToolsAdapter.DroppedExactly | planner/solver_ortools.py:160-166 | an id is unscheduled exactly when it belongs to a task whose index is its own successor; the list is sorted; it lists each dropped task once |
| OrToolsAdapter.DroppedIdsMembers | planner/solver_ortools.py:161-165 | the unscheduled loop collects exactly the ids of the self-looping task nodes |
| OrToolsAdapter.SelfLoopNeverEnds | planner/solver_ortools.py:137-164 | a walk that meets an index that is its own successor never reaches an end |
| OrToolsAdapter.WalkHasNoSelfLoop | planner/solver_ortools.py:137-164 | no index on a route that reaches its end is its own successor |
| OrToolsAdapter.RoutedIsNotDropped | planner/solver_ortools.py:132-166 | with distinct task ids, no id is both on a route and unscheduled |
| OrToolsAdapter.RoutedIdNotDropped | planner/solver_ortools.py:141-165 | an id on a route is not among the dropped ids |
| OrToolsAdapter.VisitOfId | planner/solver_ortools.py:139-141 | an id on some route is the id of the task that some visit on that route stands for |
| OrToolsAdapter.KeptNotListed | planner/solver_ortools.py:160-165 | with distinct task ids, a task that is not dropped is not among the dropped ids |
| OrToolsAdapter.VisitNotDropped | planner/solver_ortools.py:137-164 | the task a route visit stands for maps back to that visit's index and is not dropped |
| OrToolsAdapter.InAssignedIds | planner/solver_ortools.py:150-158 | an id among all routed ids lies on some particular route |
| OrToolsAdapter.DistinctIndices | planner/solver_ortools.py:161-165 | with distinct task ids, two tasks with the same id are the same task |
| OrToolsAdapter.FeasibleAnswerRespectsWindows | planner/solver_ortools.py:94-172 | for an answer meeting the time dimension's constraints: every ETA of a windowed task lies in that window and every other ETA lies in the horizon; every route duration and the objective are non-negative |
| OrToolsAdapter.FeasibleVisit | planner/solver_ortools.py:96-98 | the time value at a task visit lies in its node's window |
| OrToolsAdapter.SumOfRoutes | planner/solver_ortools.py:172 | a sum of non-negative route durations is not negative |
| OrToolsAdapter.WalkAdvance | planner/solver_ortools.py:137-144 | one loop iteration keeps the walk invariant: the visits seen plus those ahead make up the whole route |
| OrToolsAdapter.CollectVisits | planner/solver_ortools.py:137-144 | the `while not routing.IsEnd(index)` loop records exactly the route's task ids and formatted ETAs |
| OrToolsAdapter.WalkRoute | planner/solver_ortools.py:133-158 | one vehicle's route entry, including `route_time`, is the specified one |
| OrToolsAdapter.ReadAnswer | planner/solver_ortools.py:121-180 | reading the answer back computes the specified plan, with or without a solution |
| OrToolsAdapter.SolvePlanOrTools | planner/solver_ortools.py:32-180 | model construction, then the search, then reading the answer, computes the specified plan |
| HttpClient.RequestFromStops | api/http_client.py:37-54 | from attempt k on, calls stop at the first attempt that is not retried, or at the last attempt; every earlier attempt was retried; the outcome is the stopping attempt's; one sleep of backoff * 2**i precedes each retry |
| HttpClient.RequestCalls | api/http_client.py:33-54 | with at least one attempt: between 1 and `attempts` calls, all but the last retried, the outcome the last call's, sleeps backoff * 2**i between calls; with none, the unbound `response` fails with no call |
| HttpClient.NoClientNoCall | api/http_client.py:34-35 | without a client, `request` raises RuntimeError before any call |
| HttpClient.NonRetryableReturnsAtOnce | api/http_client.py:48-52 | a status other than 429 and 5xx is returned from the attempt that produced it |
| HttpClient.AllRateLimited | api/http_client.py:48-50 | when every call is answered 429, all attempts are made and the last 429 response is returned, not raised |
| HttpClient.AllConnectFailures | api/http_client.py:40-46 | when every call fails to connect, all attempts are made and NetworkError is raised |
| HttpClient.Client.constructor | api/http_client.py:9 | there is no client at first |
| HttpClient.Client.Init | api/http_client.py:12-23 | a client is created only when there is none; an existing one is kept |
| HttpClient.Client.Close | api/http_client.py:26-30 | afterwards there is no client |
| HttpClient.Client.Request | api/http_client.py:33-54 | the retry loop, with its early returns, computes the specified reply |
| PlannerService.BuildOutcome | planner/service.py:13-21 | a build succeeds exactly when every fetch succeeds and the times parse; the plan is at the configured depot, has one route per fetched vehicle, and accounts for every fetched stop exactly once |
| PlannerService.PublishChecksStatus | planner/service.py:24-27 | publishing fails exactly when the status is outside [200, 300); the ApiError carries the status and the response text cut to at most 100 characters |
| PlannerService.PublishRateLimited | tests/test_publish_plan.py:34-48 | an endpoint answering 429 to every attempt makes `publish_plan` raise ApiError(429) after all attempts |
| PlannerService.Planner.constructor | planner/service.py:10 | there is no latest plan before any build |
| PlannerService.Planner.BuildTodayPlan | planner/service.py:13-21 | the build computes the specified result, and replaces the latest plan only when it succeeds |
| PlannerService.Planner.GetLatestPlan | planner/service.py:30-31 | the latest plan is returned as kept |
| PlannerService.Planner.PublishPlan | planner/service.py:24-27 | the request's reply is mapped to the specified outcome |
| PlanHistory.Reverse | storage/history.py:42-47 | `ORDER BY id DESC` on a table kept in increasing id order reverses it |
| PlanHistory.KeepOnlyMembers | storage/history.py:32-35 | the delete keeps exactly the rows whose id is listed, in table order |
| PlanHistory.KeepAll | storage/history.py:32-35 | keeping every id of the table keeps the table |
| PlanHistory.KeepDropsPrefix | storage/history.py:32-35 | keeping only ids that a prefix of the table lacks drops exactly that prefix |
| PlanHistory.PrunedKeepsNewest | storage/history.py:32-35 | on an increasing table, the delete keeps exactly the newest `size` rows: all of them for a negative size, none for 0 |
| PlanHistory.RecentNewestFirst | storage/history.py:39-47 | reading gives min(limit, stored) plans, all for a negative limit, newest first |
| PlanHistory.SaveKeepsOrder | storage/history.py:27-36 | saving keeps ids increasing and below the next id, leaves at most `size` rows, and keeps the saved plan as the newest row when size >= 1 |
| PlanHistory.History.constructor | storage/history.py:8 | there is no connection and an empty table at first |
| PlanHistory.History.InitDb | storage/history.py:11-24 | connects once; the table is unchanged, and a second call changes nothing |
| PlanHistory.History.SavePlan | storage/history.py:27-36 | RuntimeError and no change without a connection; otherwise the table becomes the newest `size` rows of the old table plus the new row |
| PlanHistory.History.GetRecentPlans | storage/history.py:39-47 | RuntimeError without a connection; otherwise the newest `limit` plans, newest first |
| PlanHistory.ThreeSavesKeepTwo | tests/test_history.py:21-33 | with history size 2, three saves and then reading five plans gives the third and the second plan, in that order |
| RouteSchemas.SetDefaultKeeps | api/schemas.py:88 | `setdefault` binds the key, keeps an existing value, and touches no other key |
| RouteSchemas.WithDateFacts | api/schemas.py:82-89 | date injection keeps the list's length and order; with a date every route gets a "date", its own if it had one and the schedule's otherwise, and nothing else changes; without a date the list is unchanged |
| RouteSchemas.InjectedDate | api/schemas.py:34-89 | a route without a date fails validation on its own; after injection it carries the schedule's date; a route with its own date validates exactly as before |
| RouteSchemas.ParseRoutesEach | api/schemas.py:45-79 | a list of routes validates exactly when every route does, each to its own result |
| RouteSchemas.ScheduleDates | api/schemas.py:75-89 | every route of a valid schedule has the schedule's date, unless it named its own |
| RouteSchemas.RouteDefaults | api/schemas.py:34-48 | a route with only the required fields validates with no crew, zero totals and no tasks |
| RouteSchemas.ApplyDate | api/schemas.py:82-89 | `_apply_date` updates the given list in place, as the date injection specifies, and returns that same list |
| RouteApi.FirstSlot | api/routes.py:132-137 | finds the first route in table order with the payload's date and vehicle, or reports that none has them |
| RouteApi.IndexOfId | api/routes.py:75-81 | finds the route with that id, or reports that none has it |
| RouteApi.UpsertFacts | api/routes.py:131-155 | one payload route is counted exactly once, as overwritten exactly when its date and vehicle already had a route; the table grows only when it is created; the new route is the newest; ids stay fresh and slots unique |
| RouteApi.UpsertKeepsFresh | api/routes.py:131-155 | after one upsert every route id is distinct and below the next id |
| RouteApi.UpsertKeepsSlots | api/routes.py:131-155 | one upsert keeps at most one route per date and vehicle |
| RouteApi.UpsertAll | api/routes.py:128-155 | the upsert loop computes the table and the created and overwritten counts that `Submit` specifies |
| RouteApi.SubmitCounted | api/routes.py:128-164 | created plus overwritten equals the number of payload routes; the table grows by the created count; ids stay fresh; at most one route per date and vehicle stays so |
| RouteApi.SubmitCovers | api/routes.py:131-155 | after a submission every payload route's date and vehicle has a route, and the route built from the last payload route is the newest in the table |
| RouteApi.UpsertReplacesSlot | api/routes.py:132-155 | with at most one route per date and vehicle, one payload route leaves the routes of every other date and vehicle plus its own new route, which is last |
| RouteApi.SubmitOverwrites | api/routes.py:131-155 | starting from at most one route per date and vehicle, every payload route's date and vehicle ends with exactly one route: the one built from the last payload route for it |
| RouteApi.SlotKept | api/routes.py:138-155 | an upsert never leaves a date and vehicle that had a route without one |
| RouteApi.RemoveOnly | api/routes.py:106-116 | deleting a route removes that route and only it |
| RouteApi.FirstBodyValidates | tests/test_routes_schedule_submit.py:63-114 | the first request body, with no date on its route, validates to a route dated with the schedule's date |
| RouteApi.FirstRouteValidates | tests/test_routes_schedule_submit.py:63-114 | the first body's route, once dated with the schedule's day, validates to the first v1 route |
| RouteApi.FirstSubmission | tests/test_routes_schedule_submit.py:63-114 | a first submission creates one route and overwrites none |
| RouteApi.ResubmitOverwrites | tests/test_routes_schedule_submit.py:63-114 | resubmitting the day with v1 and a new v2 overwrites one route and creates one: two routes, v1 now linking the new task |
| RouteApi.BuildRouteEntity | api/routes.py:38-58 | the entity copies the route fields and has one task link per payload task, in order, with that task's fields |
| RouteApi.RouteTable.constructor | api/routes.py:35 | the routes table is empty at first |
| RouteApi.RouteTable.GetRoute | api/routes.py:71-85 | the route is found exactly when some route has that id; otherwise 404 "Route not found" |
| RouteApi.RouteTable.CreateRoute | api/routes.py:88-103 | on commit the built route is appended with a fresh id; on a failed commit, 500 "Failed to create route" and no change |
| RouteApi.RouteTable.DeleteRoute | api/routes.py:106-116 | 404 and no change when no route has that id; otherwise exactly that route is removed |
| RouteApi.RouteTable.SubmitSchedule | api/routes.py:119-164 | the upsert loop computes the specified table and counts; on a failed commit, 500 "Failed to submit schedule" and no change |

## Left out

- Python's `int()` also accepts a sign, surrounding spaces, underscores and non-ASCII Unicode decimal digits. `ParseTime` accepts only ASCII digit runs on either side of a single ':'. Anything else is the ValueError, so the model rejects some times the source reads.
- planner/metrics.py defines only `haversine_minutes`. Yet planner/solver.py:4 and planner/solver_ortools.py:10 import `distance_km` and `travel_minutes` from it, so both planners fail to import as written. The model's `TravelTime` parameter stands for the missing `travel_minutes`.
- `TaskDTO` has no `service_minutes` field (planner/dtos.py:17-23), so `task.service_minutes` at planner/solver.py:48 would raise AttributeError. The model gives each task an optional natural `serviceMinutes` that falls back to the default. It does not model a negative value, which Python's `or` would keep and which would move the clock back.
- `VehiclePlanDTO` and `PlanResultDTO` have no `total_minutes` or `objective_minutes` field (planner/dtos.py:26-38), so building them at planner/solver.py:69 would raise. The model keeps both fields, as the planners mean them.
- config.py defines only `api_base_url` and `api_key`, yet the planners read `config.PLANNING_HORIZON_START`, `SERVICE_TIME_MINUTES_DEFAULT`, `DEPOT_LAT` and more from it. `PlanModel.Config` takes those values as a parameter record with no fixed values. The solver settings (first-solution strategy, metaheuristic, time limit) and the average speed are not modelled.
- Coordinates are floats in the source and integers in the model. Travel time reaches the model only through the `TravelTime` parameter.
- RouteSchemas.ApplyDate: like `WithDate` and `ParseSchedule`, it takes `routes` to be a list of objects. The source's before-validator (api/schemas.py:85-89) raises AttributeError on a non-object item and TypeError on a non-list `routes`. That gives an unhandled 500, which the model cannot represent.
- GreedySolver.SolvePlan, OrToolsAdapter.SolvePlanOrTools, PlannerService.BuildResult: these require parseable times. The source raises ValueError lazily, only when it reaches a bad time (for instance never, when there are no vehicles). The model fails up front, on any unparseable time, with `InvalidTime` in the orchestrator.
- Distance is not modelled: `total_km`, the float haversine, the Distance dimension. Travel time is an abstract function from two coordinates to whole minutes.
- GreedySolver.ExamplePlan: uses a stand-in travel function of 2 minutes per 0.01 degree of longitude and 167 minutes per degree of latitude. It agrees with the test's assertions, not with the exact haversine minutes.
- The OR-Tools search is a parameter. Its answer is assumed to fit the model: the manager covers every node and vehicle, and every route reaches its end. Which routes it picks, the arc costs, the capacity dimension's enforcement and the penalty trade-off are not modelled. So the OR-Tools test scenario is not reproduced.
- OrToolsAdapter.RoutedIsNotDropped: conservation for OR-Tools is proved only in the direction "no id is both routed and unscheduled", with DroppedExactly characterising the unscheduled list. That every task is routed or dropped depends on the search's answer.
- Generated timestamps (`generated_at`, `created_at`), logging and the auth header hook are left out.
- Route ids are a counter in place of `uuid4`.
- Plan history: persistence across processes and the SQLite file are left out. JSON serialisation of a plan is the identity, and the stored value is generic.
- RouteSchemas.ParseRoute: validation is strict. Pydantic's coercions between types are not modelled. Dates and datetimes are kept as the strings that carry them, without format checks. `total_distance` and `total_duration` are integers, not floats.
- The relationship's `order_by` on reload is not modelled: task links keep payload order. "first()" is taken as table order.
- Session autoflush is assumed, so an overwritten route is gone before the next payload route's query. That is what the schedule test relies on.
- RouteApi.RouteTable.DeleteRoute: a failing commit in `delete_route` is not modelled. The source does not catch it.
- `list_routes`, the vehicle, crew and stop fetchers, the scheduler, the diagnostics and metrics endpoints and the webhooks are not part of this model.
- HTTP: the backoff is a natural number of time units, not float seconds. `asyncio.sleep` is recorded in the reply, not performed. The request method, URL, payload and timeout are not modelled.
- PlannerService.Planner.PublishPlan: the `response.text` of a reply is an input that the request itself does not produce.
- Concurrency between coroutines is not modelled: every operation runs to completion on its own.
