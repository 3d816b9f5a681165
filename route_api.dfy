/** The route API over the routes table: building a route entity from its
    input, reading, creating and deleting one route, and submitting a day's
    schedule, which replaces the first route already planned for the same
    date and vehicle or creates a new one, counting each. Route ids, random
    UUIDs in the service, are drawn from a counter here; the session's
    pending changes are applied in order and written only on commit. */
module RouteApi {
  import opened Wrappers
  import opened RouteSchemas

  /** A `RouteTaskLink` row (its own id and route id are not modelled). */
  datatype TaskLink = TaskLink(taskId: string, order: int, estimatedStart: Option<string>, estimatedEnd: Option<string>)

  /** A `Route` row with its task links. */
  datatype RouteEntity = RouteEntity(
    id: nat,
    date: string,
    vehicleId: string,
    crewId: Option<string>,
    officeId: string,
    totalDistance: int,
    totalDuration: int,
    tasks: seq<TaskLink>)

  datatype HttpError = HttpError(status: int, detail: string)

  datatype SubmitCounts = SubmitCounts(created: nat, overwritten: nat)

  /** The routes table and the next route id. */
  datatype Table = Table(routes: seq<RouteEntity>, nextId: nat)

  const RouteNotFound := HttpError(404, "Route not found")
  const CreateFailed := HttpError(500, "Failed to create route")
  const SubmitFailed := HttpError(500, "Failed to submit schedule")

  function LinkOf(t: TaskLinkInput): TaskLink
  {
    TaskLink(t.taskId, t.order, t.estimatedStart, t.estimatedEnd)
  }

  /** The entity `_build_route_entity` makes from `p`, with id `id`. */
  function EntityOf(p: RouteInput, id: nat): RouteEntity
  {
    RouteEntity(id, p.date, p.vehicleId, p.crewId, p.officeId, p.totalDistance, p.totalDuration,
                seq(|p.tasks|, i requires 0 <= i < |p.tasks| => LinkOf(p.tasks[i])))
  }

  /** `r` is planned for the same date and vehicle as `p`. */
  predicate SameSlot(r: RouteEntity, p: RouteInput)
  {
    r.date == p.date && r.vehicleId == p.vehicleId
  }

  /** The position of the first route in table order for the date and
      vehicle of `p`: `select ... where date and vehicle_id ... first()`. */
  function FirstSlot(routes: seq<RouteEntity>, p: RouteInput): (r: Option<nat>)
    ensures r.Some? ==> r.value < |routes| && SameSlot(routes[r.value], p)
    ensures r.Some? ==> forall i :: 0 <= i < r.value ==> !SameSlot(routes[i], p)
    ensures r.None? ==> forall i :: 0 <= i < |routes| ==> !SameSlot(routes[i], p)
  {
    if routes == [] then None
    else if SameSlot(routes[0], p) then Some(0)
    else match FirstSlot(routes[1..], p)
      case None => None
      case Some(k) => Some(k + 1)
  }

  /** The position of the route with id `id`, if any. */
  function IndexOfId(routes: seq<RouteEntity>, id: nat): (r: Option<nat>)
    ensures r.Some? ==> r.value < |routes| && routes[r.value].id == id
    ensures r.None? ==> forall i :: 0 <= i < |routes| ==> routes[i].id != id
  {
    if routes == [] then None
    else if routes[0].id == id then Some(0)
    else match IndexOfId(routes[1..], id)
      case None => None
      case Some(k) => Some(k + 1)
  }

  function Remove(routes: seq<RouteEntity>, k: nat): seq<RouteEntity>
    requires k < |routes|
  {
    routes[..k] + routes[k + 1..]
  }

  /** One payload route of `submit_schedule`: the first route for its date
      and vehicle, if any, is deleted (and counted overwritten), otherwise it
      is counted created; then the route built from it is added. */
  function Upsert(t: Table, c: SubmitCounts, p: RouteInput): (Table, SubmitCounts)
  {
    match FirstSlot(t.routes, p)
    case Some(k) => (Table(Remove(t.routes, k) + [EntityOf(p, t.nextId)], t.nextId + 1), c.(overwritten := c.overwritten + 1))
    case None => (Table(t.routes + [EntityOf(p, t.nextId)], t.nextId + 1), c.(created := c.created + 1))
  }

  /** The table and counters after the payload routes, in order. */
  function Submit(t: Table, payload: seq<RouteInput>): (Table, SubmitCounts)
  {
    if payload == [] then (t, SubmitCounts(0, 0))
    else
      var before := Submit(t, payload[..|payload| - 1]);
      Upsert(before.0, before.1, payload[|payload| - 1])
  }

  // ---------------------------------------------------------------------------
  // Invariants of the table

  /** Route ids are distinct and below the next id. */
  predicate IdsFresh(t: Table)
  {
    && (forall i :: 0 <= i < |t.routes| ==> t.routes[i].id < t.nextId)
    && (forall i, j :: 0 <= i < j < |t.routes| ==> t.routes[i].id != t.routes[j].id)
  }

  /** At most one route per date and vehicle. */
  predicate SlotsUnique(routes: seq<RouteEntity>)
  {
    forall i, j :: 0 <= i < j < |routes| ==>
      routes[i].date != routes[j].date || routes[i].vehicleId != routes[j].vehicleId
  }

  lemma RemoveFacts(routes: seq<RouteEntity>, k: nat)
    requires k < |routes|
    ensures |Remove(routes, k)| == |routes| - 1
    ensures forall i :: 0 <= i < k ==> Remove(routes, k)[i] == routes[i]
    ensures forall i :: k <= i < |routes| - 1 ==> Remove(routes, k)[i] == routes[i + 1]
  {
  }

  /** One upsert adds one route and counts it once, keeps ids fresh and
      slots unique, and leaves the new route last. */
  lemma UpsertFacts(t: Table, c: SubmitCounts, p: RouteInput)
    requires IdsFresh(t)
    ensures var (t', c') := Upsert(t, c, p);
      && IdsFresh(t')
      && t'.nextId == t.nextId + 1
      && c'.created + c'.overwritten == c.created + c.overwritten + 1
      && |t'.routes| == |t.routes| + (c'.created - c.created)
      && c'.created >= c.created && c'.overwritten >= c.overwritten
      && (c'.overwritten > c.overwritten <==> FirstSlot(t.routes, p).Some?)
      && t'.routes[|t'.routes| - 1] == EntityOf(p, t.nextId)
      && (SlotsUnique(t.routes) ==> SlotsUnique(t'.routes))
  {
    UpsertKeepsFresh(t, c, p);
    if SlotsUnique(t.routes) {
      UpsertKeepsSlots(t, c, p);
    }
  }

  lemma UpsertKeepsFresh(t: Table, c: SubmitCounts, p: RouteInput)
    requires IdsFresh(t)
    ensures IdsFresh(Upsert(t, c, p).0)
  {
    var slot := FirstSlot(t.routes, p);
    if slot.Some? {
      RemoveFacts(t.routes, slot.value);
    }
  }

  lemma UpsertKeepsSlots(t: Table, c: SubmitCounts, p: RouteInput)
    requires SlotsUnique(t.routes)
    ensures SlotsUnique(Upsert(t, c, p).0.routes)
  {
    var slot := FirstSlot(t.routes, p);
    if slot.Some? {
      RemoveFacts(t.routes, slot.value);
    }
  }

  /** `submit_schedule` counts every payload route once, as created or as
      overwritten; the table grows by the created count; ids stay fresh;
      and at most one route per date and vehicle stays so. */
  lemma {:induction false} SubmitCounted(t: Table, payload: seq<RouteInput>)
    requires IdsFresh(t)
    ensures var (t', c) := Submit(t, payload);
      && c.created + c.overwritten == |payload|
      && |t'.routes| == |t.routes| + c.created
      && t'.nextId == t.nextId + |payload|
      && IdsFresh(t')
      && (SlotsUnique(t.routes) ==> SlotsUnique(t'.routes))
  {
    if payload != [] {
      var before := Submit(t, payload[..|payload| - 1]);
      SubmitCounted(t, payload[..|payload| - 1]);
      UpsertFacts(before.0, before.1, payload[|payload| - 1]);
    }
  }

  /** After a submission every payload route's date and vehicle has a
      route, and the route built from the last payload route is the last one
      in the table. */
  lemma {:induction false} SubmitCovers(t: Table, payload: seq<RouteInput>)
    requires IdsFresh(t)
    ensures var t' := Submit(t, payload).0;
      && (forall i :: 0 <= i < |payload| ==> FirstSlot(t'.routes, payload[i]).Some?)
      && (payload != [] ==> t'.routes[|t'.routes| - 1] == EntityOf(payload[|payload| - 1], t.nextId + |payload| - 1))
  {
    if payload != [] {
      var init := payload[..|payload| - 1];
      var p := payload[|payload| - 1];
      var before := Submit(t, init);
      SubmitCovers(t, init);
      SubmitCounted(t, init);
      UpsertFacts(before.0, before.1, p);
      var after := Submit(t, payload).0;
      forall i | 0 <= i < |payload| ensures FirstSlot(after.routes, payload[i]).Some? {
        if i < |payload| - 1 {
          assert init[i] == payload[i];
          SlotKept(before.0, before.1, p, payload[i]);
        } else {
          assert SameSlot(after.routes[|after.routes| - 1], p);
        }
      }
    }
  }

  /** Two payload routes are planned for the same date and vehicle. */
  predicate SharesSlot(a: RouteInput, b: RouteInput)
  {
    a.date == b.date && a.vehicleId == b.vehicleId
  }

  /** The position of the last payload route planned for the same date and
      vehicle as the `i`-th. */
  function LastInSlot(payload: seq<RouteInput>, i: nat): (j: nat)
    requires i < |payload|
    ensures i <= j < |payload| && SharesSlot(payload[j], payload[i])
    ensures forall l :: j < l < |payload| ==> !SharesSlot(payload[l], payload[i])
    decreases |payload|
  {
    if SharesSlot(payload[|payload| - 1], payload[i]) then |payload| - 1
    else LastInSlot(payload[..|payload| - 1], i)
  }

  /** With at most one route per date and vehicle, an upsert replaces the
      route of `p`'s date and vehicle: afterwards the table holds the routes
      of every other date and vehicle and the new route, which is last. */
  lemma UpsertReplacesSlot(t: Table, c: SubmitCounts, p: RouteInput)
    requires SlotsUnique(t.routes)
    ensures var after := Upsert(t, c, p).0.routes;
      && after != [] && after[|after| - 1] == EntityOf(p, t.nextId)
      && forall r :: r in after <==> (r in t.routes && !SameSlot(r, p)) || r == EntityOf(p, t.nextId)
  {
    var after := Upsert(t, c, p).0.routes;
    match FirstSlot(t.routes, p)
    case None =>
    case Some(m) =>
      RemoveFacts(t.routes, m);
      forall r ensures r in after <==> (r in t.routes && !SameSlot(r, p)) || r == EntityOf(p, t.nextId) {
        if r in t.routes && !SameSlot(r, p) {
          var x :| 0 <= x < |t.routes| && t.routes[x] == r;
          if x < m {
            assert after[x] == r;
          } else {
            assert after[x - 1] == r;
          }
        }
        if r in Remove(t.routes, m) {
          var x :| 0 <= x < |Remove(t.routes, m)| && Remove(t.routes, m)[x] == r;
          if x < m {
            assert r == t.routes[x];
          } else {
            assert r == t.routes[x + 1];
          }
        }
      }
  }

  /** The table holds the route built from the last payload route planned
      for the date and vehicle of the `i`-th, with its id counted from
      `base`, and no other route for that date and vehicle. */
  predicate HoldsLast(routes: seq<RouteEntity>, payload: seq<RouteInput>, base: nat, i: nat)
    requires i < |payload|
  {
    var j := LastInSlot(payload, i);
    && EntityOf(payload[j], base + j) in routes
    && forall r :: r in routes && SameSlot(r, payload[i]) ==> r == EntityOf(payload[j], base + j)
  }

  /** `submit_schedule` overwrites: when the table starts with at most one
      route per date and vehicle, afterwards every payload route's date and
      vehicle holds exactly one route, the one built from the last payload
      route for that date and vehicle. */
  lemma {:induction false} SubmitOverwrites(t: Table, payload: seq<RouteInput>)
    requires IdsFresh(t) && SlotsUnique(t.routes)
    ensures forall i :: 0 <= i < |payload| ==> HoldsLast(Submit(t, payload).0.routes, payload, t.nextId, i)
  {
    if payload != [] {
      var n := |payload| - 1;
      var before := Submit(t, payload[..n]);
      SubmitOverwrites(t, payload[..n]);
      SubmitCounted(t, payload[..n]);
      forall i | 0 <= i < |payload| ensures HoldsLast(Submit(t, payload).0.routes, payload, t.nextId, i) {
        HoldsLastStep(before.0, before.1, payload, t.nextId, i);
      }
    }
  }

  /** One upsert of the last payload route keeps `HoldsLast` for the earlier
      ones and establishes it for the last. */
  lemma HoldsLastStep(before: Table, c: SubmitCounts, payload: seq<RouteInput>, base: nat, i: nat)
    requires i < |payload| && SlotsUnique(before.routes) && before.nextId == base + |payload| - 1
    requires i < |payload| - 1 ==> HoldsLast(before.routes, payload[..|payload| - 1], base, i)
    ensures HoldsLast(Upsert(before, c, payload[|payload| - 1]).0.routes, payload, base, i)
  {
    var n := |payload| - 1;
    var init := payload[..n];
    var p := payload[n];
    UpsertReplacesSlot(before, c, p);
    var after := Upsert(before, c, p).0.routes;
    var e := EntityOf(p, base + n);
    var j := LastInSlot(payload, i);
    if SharesSlot(p, payload[i]) {
      assert j == n;
      assert after[|after| - 1] == e;
    } else {
      assert i < n && init[i] == payload[i];
      assert j == LastInSlot(init, i) && init[j] == payload[j];
      var ej := EntityOf(payload[j], base + j);
      assert ej in before.routes && !SameSlot(ej, p);
      forall r | r in after && SameSlot(r, payload[i]) ensures r == ej {
        assert r != e;
      }
    }
  }

  lemma SubmitStep(t: Table, payload: seq<RouteInput>, i: nat)
    requires i < |payload|
    ensures var before := Submit(t, payload[..i]);
      Submit(t, payload[..i + 1]) == Upsert(before.0, before.1, payload[i])
  {
    assert payload[..i + 1][..i] == payload[..i];
  }

  /** An upsert never takes away the last route of another date and
      vehicle: a slot that had a route still has one. */
  lemma SlotKept(t: Table, c: SubmitCounts, p: RouteInput, q: RouteInput)
    requires FirstSlot(t.routes, q).Some?
    ensures FirstSlot(Upsert(t, c, p).0.routes, q).Some?
  {
    var after := Upsert(t, c, p).0.routes;
    var k := FirstSlot(t.routes, q).value;
    match FirstSlot(t.routes, p)
    case None =>
      assert SameSlot(after[k], q);
    case Some(m) =>
      RemoveFacts(t.routes, m);
      if m == k {
        assert SameSlot(after[|after| - 1], q);
      } else if k < m {
        assert SameSlot(after[k], q);
      } else {
        assert SameSlot(after[k - 1], q);
      }
  }

  /** Deleting a route at its position removes it and only it: all other
      routes stay, in order, and with distinct ids no route with that id is
      left. */
  lemma RemoveOnly(t: Table, k: nat)
    requires IdsFresh(t) && k < |t.routes|
    ensures var rest := Remove(t.routes, k);
      && |rest| == |t.routes| - 1
      && (forall i :: 0 <= i < |t.routes| && i != k ==> t.routes[i] in rest)
      && (forall r :: r in rest ==> r in t.routes && r.id != t.routes[k].id)
      && IdsFresh(Table(rest, t.nextId))
  {
    var rest := Remove(t.routes, k);
    RemoveFacts(t.routes, k);
    forall i | 0 <= i < |t.routes| && i != k ensures t.routes[i] in rest {
      if i < k {
        assert rest[i] == t.routes[i];
      } else {
        assert rest[i - 1] == t.routes[i];
      }
    }
  }

  // ---------------------------------------------------------------------------
  // Example: a day submitted twice

  const Day: string := "2025-08-17"
  const FirstV1 := RouteInput(Day, "v1", Some("c1"), "o1", 0, 0,
                              [TaskLinkInput("t1", 1, Some("2025-08-17T08:00:00"), Some("2025-08-17T08:20:00"))])
  const SecondV1 := RouteInput(Day, "v1", Some("c1"), "o1", 0, 0,
                               [TaskLinkInput("t2", 1, Some("2025-08-17T09:00:00"), Some("2025-08-17T09:20:00"))])
  const SecondV2 := RouteInput(Day, "v2", Some("c2"), "o1", 0, 0,
                               [TaskLinkInput("t3", 1, Some("2025-08-17T10:00:00"), Some("2025-08-17T10:20:00"))])

  /** The task link of the first body. */
  const FirstLink: Json := JObj(map["task_id" := JStr("t1"), "order" := JNum(1),
                                    "estimated_start" := JStr("2025-08-17T08:00:00"),
                                    "estimated_end" := JStr("2025-08-17T08:20:00")])

  /** The first request body, whose route names no date of its own. */
  const FirstBody: map<string, Json> := map[
    "vehicle_id" := JStr("v1"), "crew_id" := JStr("c1"), "office_id" := JStr("o1"),
    "tasks" := JList([FirstLink])]

  lemma FirstLinksValidate()
    ensures ParseLinks([FirstLink]) == Some(FirstV1.tasks)
  {
    assert ParseLink(FirstLink) == Some(FirstV1.tasks[0]);
    assert [FirstLink][1..] == [];
    assert ParseLinks([]) == Some([]);
    assert [FirstV1.tasks[0]] + [] == FirstV1.tasks;
  }

  lemma FirstRouteValidates()
    ensures ParseRoute(SetDefault(FirstBody, "date", JStr(Day))) == Some(FirstV1)
  {
    var dated := SetDefault(FirstBody, "date", JStr(Day));
    FirstLinksValidate();
    assert dated["tasks"] == JList([FirstLink]);
  }

  /** The body validates to the first v1 route, dated with the schedule's
      day. */
  lemma FirstBodyValidates()
    ensures ParseSchedule(Some(Day), [FirstBody]) == Some((Day, [FirstV1]))
  {
    var dated := SetDefault(FirstBody, "date", JStr(Day));
    assert WithDate([FirstBody], Some(Day)) == [dated];
    FirstRouteValidates();
    assert [dated][1..] == [];
    assert ParseRoutes([]) == Some([]);
    assert [FirstV1] + [] == [FirstV1];
  }

  lemma FirstSubmission()
    ensures Submit(Table([], 0), [FirstV1]) == (Table([EntityOf(FirstV1, 0)], 1), SubmitCounts(1, 0))
  {
    assert [FirstV1][..0] == [];
    assert Submit(Table([], 0), []) == (Table([], 0), SubmitCounts(0, 0));
    assert FirstSlot([], FirstV1) == None;
    assert [] + [EntityOf(FirstV1, 0)] == [EntityOf(FirstV1, 0)];
  }

  /** Submitting v1 with t1, then v1 with t2 and v2 with t3 for the same day:
      the second submission overwrites one route and creates one, the table
      holds two routes, and v1's route now links t2. */
  lemma ResubmitOverwrites()
    ensures var first := Submit(Table([], 0), [FirstV1]);
      var (t, c) := Submit(first.0, [SecondV1, SecondV2]);
      && first.1 == SubmitCounts(1, 0)
      && c == SubmitCounts(1, 1)
      && |t.routes| == 2
      && t.routes[0].vehicleId == "v1" && |t.routes[0].tasks| == 1 && t.routes[0].tasks[0].taskId == "t2"
      && t.routes[1].vehicleId == "v2"
  {
    FirstSubmission();
    var t1 := Table([EntityOf(FirstV1, 0)], 1);
    assert [SecondV1, SecondV2][..1] == [SecondV1];
    assert [SecondV1][..0] == [];
    assert FirstSlot(t1.routes, SecondV1) == Some(0);
    var t2 := Table([EntityOf(SecondV1, 1)], 2);
    assert Submit(t1, []) == (t1, SubmitCounts(0, 0));
    assert Remove(t1.routes, 0) == [];
    assert [] + [EntityOf(SecondV1, 1)] == [EntityOf(SecondV1, 1)];
    assert Submit(t1, [SecondV1]) == (t2, SubmitCounts(0, 1));
    assert FirstSlot(t2.routes, SecondV2) == None;
  }

  // ---------------------------------------------------------------------------
  // The endpoints

  /** `_build_route_entity`: the route fields copied, then one task link per
      input task, appended in input order. */
  method BuildRouteEntity(p: RouteInput, id: nat) returns (route: RouteEntity)
    ensures route == EntityOf(p, id)
    ensures route.id == id && route.date == p.date && route.vehicleId == p.vehicleId
      && route.crewId == p.crewId && route.officeId == p.officeId
      && route.totalDistance == p.totalDistance && route.totalDuration == p.totalDuration
    ensures |route.tasks| == |p.tasks|
      && forall i :: 0 <= i < |p.tasks| ==>
           route.tasks[i].taskId == p.tasks[i].taskId && route.tasks[i].order == p.tasks[i].order
           && route.tasks[i].estimatedStart == p.tasks[i].estimatedStart
           && route.tasks[i].estimatedEnd == p.tasks[i].estimatedEnd
  {
    route := RouteEntity(id, p.date, p.vehicleId, p.crewId, p.officeId, p.totalDistance, p.totalDuration, []);
    for i := 0 to |p.tasks|
      invariant route == EntityOf(p, id).(tasks := EntityOf(p, id).tasks[..i])
    {
      var task := p.tasks[i];
      route := route.(tasks := route.tasks + [TaskLink(task.taskId, task.order, task.estimatedStart, task.estimatedEnd)]);
    }
  }

  /** The upsert loop of `submit_schedule` on the session's view of the
      table: for each payload route in order, the first route for its date
      and vehicle is deleted and counted overwritten, or the route is counted
      created; then the built route is added under the next id. */
  method UpsertAll(routes: seq<RouteEntity>, nextId: nat, payload: seq<RouteInput>)
    returns (table: seq<RouteEntity>, next: nat, created: nat, overwritten: nat)
    ensures (Table(table, next), SubmitCounts(created, overwritten)) == Submit(Table(routes, nextId), payload)
  {
    table, next := routes, nextId;
    created, overwritten := 0, 0;
    for i := 0 to |payload|
      invariant Submit(Table(routes, nextId), payload[..i]) == (Table(table, next), SubmitCounts(created, overwritten))
    {
      var p := payload[i];
      ghost var before := (Table(table, next), SubmitCounts(created, overwritten));
      SubmitStep(Table(routes, nextId), payload, i);
      var existing := FirstSlot(table, p);
      if existing.Some? {
        table := table[..existing.value] + table[existing.value + 1..];
        overwritten := overwritten + 1;
      } else {
        created := created + 1;
      }
      assert table + [EntityOf(p, next)] == Upsert(before.0, before.1, p).0.routes;
      assert SubmitCounts(created, overwritten) == Upsert(before.0, before.1, p).1;
      var route := BuildRouteEntity(p, next);
      table := table + [route];
      next := next + 1;
    }
    assert payload[..|payload|] == payload;
  }

  class RouteTable {
    var routes: seq<RouteEntity>
    var nextId: nat

    ghost predicate Valid()
      reads this
    {
      IdsFresh(Table(routes, nextId))
    }

    constructor ()
      ensures Valid() && routes == [] && nextId == 0
    {
      routes := [];
      nextId := 0;
    }

    /** `get_route`: the route with that id, or 404. */
    method GetRoute(id: nat) returns (r: Result<RouteEntity, HttpError>)
      ensures r.Success? <==> exists i :: 0 <= i < |routes| && routes[i].id == id
      ensures r.Success? ==> r.value in routes && r.value.id == id
      ensures r.Failure? ==> r.error == RouteNotFound
    {
      var k := IndexOfId(routes, id);
      if k.None? {
        return Failure(RouteNotFound);
      }
      return Success(routes[k.value]);
    }

    /** `create_route`: adds the built route with no check for another
        route on the same date and vehicle; a failed commit rolls back and
        answers 500. */
    method CreateRoute(p: RouteInput, commitOk: bool) returns (r: Result<RouteEntity, HttpError>)
      requires Valid()
      modifies this
      ensures Valid()
      ensures commitOk ==>
                r == Success(EntityOf(p, old(nextId)))
                && routes == old(routes) + [r.value] && nextId == old(nextId) + 1
      ensures !commitOk ==> r == Failure(CreateFailed) && routes == old(routes) && nextId == old(nextId)
    {
      var route := BuildRouteEntity(p, nextId);
      if !commitOk {
        return Failure(CreateFailed);
      }
      routes := routes + [route];
      nextId := nextId + 1;
      return Success(route);
    }

    /** `delete_route`: 404 when no route has that id; otherwise that route
        and only it is removed. */
    method DeleteRoute(id: nat) returns (r: Outcome<HttpError>)
      requires Valid()
      modifies this
      ensures Valid() && nextId == old(nextId)
      ensures IndexOfId(old(routes), id).None? ==> r == Fail(RouteNotFound) && routes == old(routes)
      ensures IndexOfId(old(routes), id).Some? ==>
                r == Pass && routes == Remove(old(routes), IndexOfId(old(routes), id).value)
    {
      var k := IndexOfId(routes, id);
      if k.None? {
        return Fail(RouteNotFound);
      }
      RemoveOnly(Table(routes, nextId), k.value);
      routes := routes[..k.value] + routes[k.value + 1..];
      return Pass;
    }

    /** `submit_schedule`: the upsert loop over the payload routes, counting
        created and overwritten routes; the changes are written on commit,
        and a failed commit rolls them all back and answers 500. */
    method SubmitSchedule(payload: seq<RouteInput>, commitOk: bool) returns (r: Result<SubmitCounts, HttpError>)
      requires Valid()
      modifies this
      ensures Valid()
      ensures commitOk ==>
                var (t, c) := Submit(Table(old(routes), old(nextId)), payload);
                r == Success(c) && routes == t.routes && nextId == t.nextId
      ensures !commitOk ==> r == Failure(SubmitFailed) && routes == old(routes) && nextId == old(nextId)
    {
      var table, next, created, overwritten := UpsertAll(routes, nextId, payload);
      SubmitCounted(Table(routes, nextId), payload);
      if !commitOk {
        return Failure(SubmitFailed);
      }
      routes, nextId := table, next;
      return Success(SubmitCounts(created, overwritten));
    }
  }
}
