/** The orchestrator: `build_today_plan` fetches vehicles, crews and today's
    stops, solves with the greedy planner at the configured depot and keeps
    the plan as the latest one; `publish_plan` posts a plan and turns a non-2xx
    answer into an ApiError; `get_latest_plan` reads the kept plan. The
    fetches and the reporting endpoint's transport are inputs. */
module PlannerService {
  import opened Wrappers
  import opened PlanModel
  import opened GreedySolver
  import opened HttpClient

  /** The exceptions the orchestrator lets through to its caller. */
  datatype Fault =
    | ApiError(status: int, message: string)
    | NetworkError
    | DataValidationError
    | ClientNotInitialized
    | TransportError
    | UnboundResponse
    | InvalidTime

  /** `text[:limit]`. */
  function Truncate(text: string, limit: nat): string
  {
    if |text| <= limit then text else text[..limit]
  }

  /** What `build_today_plan` yields for the three fetch results: the first
      fetch that fails decides the error, in the order vehicles, crews,
      stops; unreadable times make the solver fail; otherwise the greedy plan
      from the configured depot. */
  function BuildResult(vehicles: Result<seq<Vehicle>, Fault>, crews: Outcome<Fault>,
                       stops: Result<seq<Task>, Fault>, cfg: Config, travel: TravelTime): Result<Plan, Fault>
  {
    if vehicles.Failure? then Failure(vehicles.error)
    else if crews.Fail? then Failure(crews.error)
    else if stops.Failure? then Failure(stops.error)
    else if !Solvable(stops.value, cfg) then Failure(InvalidTime)
    else Success(GreedyPlan(cfg.depot, stops.value, vehicles.value, cfg, travel))
  }

  /** What `publish_plan` yields for the request's reply and the response
      text: nothing for a 2xx status, ApiError with the status and the first
      100 characters of the text otherwise; the request's own failures pass
      through. */
  function PublishResult(reply: Reply, text: string): Outcome<Fault>
  {
    match reply.outcome
    case Returned(s) => if 200 <= s < 300 then Pass else Fail(ApiError(s, Truncate(text, 100)))
    case NetworkFailure => Fail(NetworkError)
    case Raised => Fail(TransportError)
    case NotInitialized => Fail(ClientNotInitialized)
    case UnboundResponse => Fail(Fault.UnboundResponse)
  }

  // ---------------------------------------------------------------------------
  // Properties

  /** A build succeeds exactly when every fetch does and the times parse; the
      plan it yields is at the configured depot, has one route per fetched
      vehicle and accounts for every fetched stop exactly once. */
  lemma BuildOutcome(vehicles: Result<seq<Vehicle>, Fault>, crews: Outcome<Fault>,
                     stops: Result<seq<Task>, Fault>, cfg: Config, travel: TravelTime)
    ensures var r := BuildResult(vehicles, crews, stops, cfg, travel);
      r.Success? <==> vehicles.Success? && crews.Pass? && stops.Success? && Solvable(stops.value, cfg)
    ensures var r := BuildResult(vehicles, crews, stops, cfg, travel);
      r.Success? ==>
        && r.value.depot == cfg.depot
        && |r.value.vehiclePlans| == |vehicles.value|
        && Conserves(stops.value, r.value)
        && |AssignedIds(r.value.vehiclePlans)| + |r.value.unscheduled| == |stops.value|
  {
    var r := BuildResult(vehicles, crews, stops, cfg, travel);
    if r.Success? {
      GreedyConserves(cfg.depot, stops.value, vehicles.value, cfg, travel);
      GreedyShape(cfg.depot, stops.value, vehicles.value, cfg, travel);
    }
  }

  /** `publish_plan` fails exactly when the status is outside [200, 300); the
      error carries that status and the text cut to at most 100 characters. */
  lemma PublishChecksStatus(status: int, calls: nat, sleeps: seq<nat>, text: string)
    ensures var r := PublishResult(Reply(Returned(status), calls, sleeps), text);
      && (r.Fail? <==> !(200 <= status < 300))
      && (r.Fail? ==>
            && r.error.ApiError? && r.error.status == status
            && |r.error.message| <= 100
            && r.error.message <= text
            && (|text| <= 100 ==> r.error.message == text))
  {
  }

  /** When the reporting endpoint answers 429 to every attempt, the request
      makes all its attempts and `publish_plan` raises ApiError(429). */
  lemma PublishRateLimited(transport: Transport, attempts: int, backoff: nat, text: string)
    requires attempts >= 1
    requires forall i :: 0 <= i < attempts ==> transport(i) == Response(429)
    ensures var reply := RequestReply(true, transport, attempts, backoff);
      && reply.calls == attempts
      && PublishResult(reply, text) == Fail(ApiError(429, Truncate(text, 100)))
  {
    AllRateLimited(transport, attempts, backoff);
  }

  // ---------------------------------------------------------------------------
  // The module-global latest plan

  class Planner {
    /** `_latest_plan`. */
    var latestPlan: Option<Plan>

    /** Before any build there is no latest plan. */
    constructor ()
      ensures latestPlan == None
    {
      latestPlan := None;
    }

    /** `build_today_plan`: the latest plan is replaced only after all
        fetches and the solve have succeeded. */
    method BuildTodayPlan(vehicles: Result<seq<Vehicle>, Fault>, crews: Outcome<Fault>,
                          stops: Result<seq<Task>, Fault>, cfg: Config, travel: TravelTime)
      returns (r: Result<Plan, Fault>)
      modifies this
      ensures r == BuildResult(vehicles, crews, stops, cfg, travel)
      ensures r.Success? ==> latestPlan == Some(r.value)
      ensures r.Failure? ==> latestPlan == old(latestPlan)
    {
      if vehicles.Failure? {
        return Failure(vehicles.error);
      }
      if crews.Fail? {
        return Failure(crews.error);
      }
      if stops.Failure? {
        return Failure(stops.error);
      }
      if !Solvable(stops.value, cfg) {
        return Failure(InvalidTime);
      }
      var plan := SolvePlan(cfg.depot, stops.value, vehicles.value, cfg, travel);
      latestPlan := Some(plan);
      return Success(plan);
    }

    /** `get_latest_plan`: the plan of the last successful build, if any. */
    method GetLatestPlan() returns (p: Option<Plan>)
      ensures p == latestPlan
    {
      p := latestPlan;
    }

    /** `publish_plan`: posts through the client and checks the status; it
        changes neither the latest plan nor the client. */
    method PublishPlan(plan: Plan, client: Client, transport: Transport, attempts: int, backoff: nat, text: string)
      returns (r: Outcome<Fault>)
      ensures r == PublishResult(RequestReply(client.current.Some?, transport, attempts, backoff), text)
    {
      var reply := client.Request(transport, attempts, backoff);
      match reply.outcome {
        case Returned(s) =>
          if !(200 <= s < 300) {
            return Fail(ApiError(s, Truncate(text, 100)));
          }
          return Pass;
        case NetworkFailure =>
          return Fail(NetworkError);
        case Raised =>
          return Fail(TransportError);
        case NotInitialized =>
          return Fail(ClientNotInitialized);
        case UnboundResponse =>
          return Fail(Fault.UnboundResponse);
      }
    }
  }
}
