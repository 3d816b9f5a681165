/** The API client's retrying `request` and the module-global client that
    `init_http_client` and `close_http_client` set and clear. The transport
    is an input: `transport(k)` is what the call made on attempt `k`
    (counting from 0) produces. Sleeping is recorded, not performed. */
module HttpClient {
  import opened Wrappers

  /** What one call of the underlying client produces: a response with its
      status code, one of the errors the loop catches (ConnectError,
      ConnectTimeout, ReadTimeout), or any other exception, which the loop
      does not catch. */
  datatype Attempt = Response(status: int) | ConnectFailure | OtherFailure

  datatype RequestOutcome =
    | Returned(status: int)  // the response handed back to the caller
    | NetworkFailure         // NetworkError, raised after the last attempt's connection error
    | Raised                 // an exception the loop does not catch, propagated as is
    | NotInitialized         // RuntimeError: there is no client
    | UnboundResponse        // no attempt at all: the final `return response` names an unbound variable

  /** How a request ends, how many calls it made and how long it slept
      before each retry, in order. */
  datatype Reply = Reply(outcome: RequestOutcome, calls: nat, sleeps: seq<nat>)

  type Transport = nat -> Attempt

  /** 429 and every 5xx status are worth another attempt. */
  predicate Retryable(status: int)
  {
    status == 429 || 500 <= status < 600
  }

  /** An attempt after which the loop goes on, unless it was the last. */
  predicate Retried(x: Attempt)
  {
    x.ConnectFailure? || (x.Response? && Retryable(x.status))
  }

  /** What the request ends with when it stops at attempt `x`. */
  function Ending(x: Attempt): RequestOutcome
  {
    match x
    case Response(s) => Returned(s)
    case ConnectFailure => NetworkFailure
    case OtherFailure => Raised
  }

  function Pow2(k: nat): nat
  {
    if k == 0 then 1 else 2 * Pow2(k - 1)
  }

  /** The pause before the retry that follows attempt `k`: `backoff * 2**k`. */
  function Backoff(backoff: nat, k: nat): nat
  {
    backoff * Pow2(k)
  }

  function Prepend(pre: seq<nat>, r: Reply): Reply
  {
    r.(sleeps := pre + r.sleeps)
  }

  /** The loop from attempt `k` on, with `attempts` attempts in all. */
  function RequestFrom(transport: Transport, attempts: int, backoff: nat, k: nat): Reply
    decreases attempts - k
  {
    if k >= attempts then Reply(UnboundResponse, k, [])
    else
      var last := k == attempts - 1;
      match transport(k)
      case OtherFailure => Reply(Raised, k + 1, [])
      case ConnectFailure =>
        if last then Reply(NetworkFailure, k + 1, [])
        else Prepend([Backoff(backoff, k)], RequestFrom(transport, attempts, backoff, k + 1))
      case Response(s) =>
        if !Retryable(s) || last then Reply(Returned(s), k + 1, [])
        else Prepend([Backoff(backoff, k)], RequestFrom(transport, attempts, backoff, k + 1))
  }

  /** `request` with or without a client. */
  function RequestReply(hasClient: bool, transport: Transport, attempts: int, backoff: nat): Reply
  {
    if !hasClient then Reply(NotInitialized, 0, []) else RequestFrom(transport, attempts, backoff, 0)
  }

  // ---------------------------------------------------------------------------
  // Properties of the retry policy

  /** From attempt `k` on: the calls made stop at the first attempt that is
      not retried, or at the last attempt; every attempt before that one is
      retried; the outcome is what that attempt produced; and one sleep of
      `backoff * 2**i` precedes each retry. */
  lemma {:induction false} RequestFromStops(transport: Transport, attempts: int, backoff: nat, k: nat)
    requires k < attempts
    ensures var r := RequestFrom(transport, attempts, backoff, k);
      && k < r.calls <= attempts
      && (forall i :: k <= i < r.calls - 1 ==> Retried(transport(i)))
      && (r.calls < attempts ==> !Retried(transport(r.calls - 1)))
      && r.outcome == Ending(transport(r.calls - 1))
      && |r.sleeps| == r.calls - 1 - k
      && forall i :: 0 <= i < |r.sleeps| ==> r.sleeps[i] == Backoff(backoff, k + i)
    decreases attempts - k
  {
    var r := RequestFrom(transport, attempts, backoff, k);
    if k < attempts - 1 && Retried(transport(k)) {
      RequestFromStops(transport, attempts, backoff, k + 1);
      var rest := RequestFrom(transport, attempts, backoff, k + 1);
      assert r == Prepend([Backoff(backoff, k)], rest);
      forall i | 0 <= i < |r.sleeps| ensures r.sleeps[i] == Backoff(backoff, k + i) {
        if i > 0 {
          assert r.sleeps[i] == rest.sleeps[i - 1];
        }
      }
    }
  }

  /** With a client and at least one attempt: at least one and at most
      `attempts` calls, each call but the last retried, the outcome the last
      call's, and the sleeps `backoff * 2**i` between calls. With no attempt
      at all the loop never runs and the request fails on the unbound
      response. */
  lemma RequestCalls(transport: Transport, attempts: int, backoff: nat)
    ensures var r := RequestReply(true, transport, attempts, backoff);
      && (attempts <= 0 ==> r == Reply(UnboundResponse, 0, []))
      && (attempts >= 1 ==>
            && 1 <= r.calls <= attempts
            && (forall i :: 0 <= i < r.calls - 1 ==> Retried(transport(i)))
            && (r.calls < attempts ==> !Retried(transport(r.calls - 1)))
            && r.outcome == Ending(transport(r.calls - 1))
            && r.outcome != UnboundResponse
            && |r.sleeps| == r.calls - 1
            && forall i :: 0 <= i < |r.sleeps| ==> r.sleeps[i] == Backoff(backoff, i))
  {
    if attempts >= 1 {
      RequestFromStops(transport, attempts, backoff, 0);
    }
  }

  /** Without a client, `request` raises RuntimeError before any call. */
  lemma NoClientNoCall(transport: Transport, attempts: int, backoff: nat)
    ensures RequestReply(false, transport, attempts, backoff).outcome == NotInitialized
    ensures RequestReply(false, transport, attempts, backoff).calls == 0
  {
  }

  /** A status that is not retried is returned from the attempt that
      produced it, when every attempt before it was retried. */
  lemma NonRetryableReturnsAtOnce(transport: Transport, attempts: int, backoff: nat, k: nat, status: int)
    requires k < attempts
    requires forall i :: 0 <= i < k ==> Retried(transport(i))
    requires transport(k) == Response(status) && !Retryable(status)
    ensures var r := RequestReply(true, transport, attempts, backoff);
      r.outcome == Returned(status) && r.calls == k + 1
  {
    RequestCalls(transport, attempts, backoff);
  }

  /** When every call is answered 429, all `attempts` calls are made and the
      last 429 response is returned, not raised. */
  lemma AllRateLimited(transport: Transport, attempts: int, backoff: nat)
    requires attempts >= 1
    requires forall i :: 0 <= i < attempts ==> transport(i) == Response(429)
    ensures var r := RequestReply(true, transport, attempts, backoff);
      r.outcome == Returned(429) && r.calls == attempts
  {
    RequestCalls(transport, attempts, backoff);
  }

  /** When every call fails to connect, all `attempts` calls are made and the
      request raises NetworkError. */
  lemma AllConnectFailures(transport: Transport, attempts: int, backoff: nat)
    requires attempts >= 1
    requires forall i :: 0 <= i < attempts ==> transport(i) == ConnectFailure
    ensures var r := RequestReply(true, transport, attempts, backoff);
      r.outcome == NetworkFailure && r.calls == attempts
  {
    RequestCalls(transport, attempts, backoff);
  }

  // ---------------------------------------------------------------------------
  // The module-global client

  class Client {
    /** `_client`: the current client, identified by how many clients were
        created before it, or `None`. */
    var current: Option<nat>
    /** How many clients have been created so far. */
    var created: nat

    constructor ()
      ensures current == None && created == 0
    {
      current := None;
      created := 0;
    }

    /** `init_http_client`: creates a client only when there is none. */
    method Init()
      modifies this
      ensures old(current).Some? ==> current == old(current) && created == old(created)
      ensures old(current).None? ==> current == Some(old(created)) && created == old(created) + 1
    {
      if current.None? {
        current := Some(created);
        created := created + 1;
      }
    }

    /** `close_http_client`: drops the client, if any. */
    method Close()
      modifies this
      ensures current == None && created == old(created)
    {
      if current.Some? {
        current := None;
      }
    }

    /** `request`: the retry loop, returning early as the source does. */
    method Request(transport: Transport, attempts: int, backoff: nat) returns (reply: Reply)
      ensures reply == RequestReply(current.Some?, transport, attempts, backoff)
    {
      if current.None? {
        return Reply(NotInitialized, 0, []);
      }
      var sleeps: seq<nat> := [];
      var attempt: nat := 0;
      while attempt < attempts
        invariant RequestFrom(transport, attempts, backoff, 0)
               == Prepend(sleeps, RequestFrom(transport, attempts, backoff, attempt))
        decreases attempts - attempt
      {
        var last := attempt == attempts - 1;
        match transport(attempt) {
          case OtherFailure =>
            return Reply(Raised, attempt + 1, sleeps);
          case ConnectFailure =>
            if last {
              return Reply(NetworkFailure, attempt + 1, sleeps);
            }
          case Response(s) =>
            if Retryable(s) {
              if last {
                return Reply(Returned(s), attempt + 1, sleeps);
              }
            } else {
              return Reply(Returned(s), attempt + 1, sleeps);
            }
        }
        sleeps := sleeps + [Backoff(backoff, attempt)];
        attempt := attempt + 1;
      }
      return Reply(UnboundResponse, attempt, sleeps);
    }
  }
}
