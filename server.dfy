/** The request-level pieces of the server: the fixed-window per-IP rate
    limiter, the middleware that consults it around every resolver, and the
    error formatter that hides internal errors from clients. */
module Server {
  import opened Wrappers
  import opened Strings
  import Resolvers

  /** Length of a rate-limit window, in milliseconds. */
  const ResetTime: int := 60000
  /** Requests allowed per window. */
  const Limit: int := 1000

  /** One IP's counter: requests seen in the window that began at `timestamp`. */
  datatype Window = Window(count: int, timestamp: int)

  /** The counter after a request at `now`: a fresh window for an unseen IP or
      an elapsed window, otherwise one more request in the current window. */
  function NextWindow(prior: Option<Window>, now: int): (w: Window)
    ensures prior.None? ==> w == Window(1, now)
    ensures prior.Some? && now - prior.value.timestamp > ResetTime ==> w == Window(1, now)
    ensures prior.Some? && now - prior.value.timestamp <= ResetTime ==>
              w == Window(prior.value.count + 1, prior.value.timestamp)
  {
    var current := prior.GetOr(Window(0, now));
    if now - current.timestamp > ResetTime then Window(1, now)
    else Window(current.count + 1, current.timestamp)
  }

  function Prior(requests: map<string, Window>, ip: string): Option<Window> {
    if ip in requests then Some(requests[ip]) else None
  }

  /** The counters after one request from `ip` at `now`. */
  function Record(requests: map<string, Window>, ip: string, now: int): map<string, Window> {
    requests[ip := NextWindow(Prior(requests, ip), now)]
  }

  /** The counters after requests from `ip` at each of `times`, in order. */
  function Replay(requests: map<string, Window>, ip: string, times: seq<int>): map<string, Window>
    decreases |times|
  {
    if times == [] then requests
    else Record(Replay(requests, ip, times[..|times| - 1]), ip, times[|times| - 1])
  }

  /** A burst from an IP with no counter, all within the window of its first
      request: the counter holds the number of requests and the first
      request's time, and no other IP's counter moves. So the k-th request
      of the burst is limited exactly when k > Limit. */
  lemma {:induction false} Burst(requests: map<string, Window>, ip: string, times: seq<int>)
    requires ip !in requests && |times| > 0
    requires forall i :: 0 <= i < |times| ==> times[i] - times[0] <= ResetTime
    ensures ip in Replay(requests, ip, times)
    ensures Replay(requests, ip, times)[ip] == Window(|times|, times[0])
    ensures Replay(requests, ip, times) - {ip} == requests
    decreases |times|
  {
    var n := |times|;
    if n > 1 {
      var prefix := times[..n - 1];
      assert prefix[0] == times[0];
      assert forall i :: 0 <= i < |prefix| ==> prefix[i] == times[i];
      Burst(requests, ip, prefix);
    } else {
      assert times[..0] == [];
    }
  }

  /** Once the window of its counter has elapsed, an IP starts over and is not limited. */
  lemma WindowResets(requests: map<string, Window>, ip: string, now: int)
    requires ip in requests && now - requests[ip].timestamp > ResetTime
    ensures Record(requests, ip, now)[ip] == Window(1, now)
    ensures Record(requests, ip, now)[ip].count <= Limit
  {
  }

  class RateLimiter {
    var requests: map<string, Window>

    constructor ()
      ensures requests == map[]
    {
      requests := map[];
    }

    /** `isRateLimited(ip)`: counts the request and says whether the IP's
        count is now over the limit. Only that IP's counter changes. */
    method IsRateLimited(ip: string, now: int) returns (limited: bool)
      modifies this
      ensures requests == Record(old(requests), ip, now)
      ensures limited <==> requests[ip].count > Limit
      ensures forall other :: other != ip ==> Prior(requests, other) == Prior(old(requests), other)
    {
      var current := if ip in requests then requests[ip] else Window(0, now);
      if now - current.timestamp > ResetTime {
        current := Window(1, now);
      } else {
        current := current.(count := current.count + 1);
      }
      requests := requests[ip := current];
      limited := current.count > Limit;
    }

    /** `rateLimitMiddleware`: a limited request fails with the rate-limit
        error before the resolver runs; a resolver error mentioning
        "Rate limit" is re-thrown; any other resolver error makes the
        middleware run the resolver a second time and return whatever that
        gives. `resolve(n)` is the outcome of the n-th invocation (from 0);
        `calls` is how many invocations were made. */
    method Middleware<V>(ip: Option<string>, now: int, resolve: nat -> Outcome<V>)
      returns (r: Outcome<V>, calls: nat)
      modifies this
      ensures requests == Record(old(requests), ClientIp(ip), now)
      ensures requests[ClientIp(ip)].count > Limit ==> r == Threw(RateLimitError) && calls == 0
      ensures requests[ClientIp(ip)].count <= Limit ==>
                if resolve(0).Returned? || Contains(resolve(0).error.message, RateLimitTag)
                then r == resolve(0) && calls == 1
                else r == resolve(1) && calls == 2
    {
      var addr := ClientIp(ip);
      var limited := IsRateLimited(addr, now);
      var first: Outcome<V>;
      if limited {
        first := Threw(RateLimitError);
        calls := 0;
        RateLimitErrorIsRethrown();
      } else {
        first := resolve(0);
        calls := 1;
      }
      if first.Returned? {
        return first, calls;
      }
      if Contains(first.error.message, RateLimitTag) {
        return first, calls;
      }
      r := resolve(1);
      calls := 2;
    }
  }

  /** An error as the server handles it: a message and `extensions.code`. */
  datatype GqlError = GqlError(message: string, code: Option<string>)

  datatype Outcome<V> = Returned(value: V) | Threw(error: GqlError)

  const RateLimitTag: string := "Rate limit"
  const RateLimitMessage: string := RateLimitTag + " exceeded. Please try again later."
  /** The middleware throws a plain `Error`, so the server tags it as internal. */
  const RateLimitError: GqlError := GqlError(RateLimitMessage, Some(InternalCode))

  /** The rate-limit error is one the middleware re-throws rather than retrying. */
  lemma RateLimitErrorIsRethrown()
    ensures Contains(RateLimitError.message, RateLimitTag)
  {
    assert RateLimitMessage[0..|RateLimitTag|] == RateLimitTag;
    ContainsAt(RateLimitMessage, RateLimitTag, 0);
  }

  /** `context?.req?.ip || '127.0.0.1'`. */
  function ClientIp(ip: Option<string>): (a: string)
    ensures a != ""
    ensures ip.Some? && ip.value != "" ==> a == ip.value
    ensures ip.None? || ip.value == "" ==> a == "127.0.0.1"
  {
    if ip.Some? && ip.value != "" then ip.value else "127.0.0.1"
  }

  const InternalCode: string := "INTERNAL_SERVER_ERROR"
  const UnauthenticatedCode: string := "UNAUTHENTICATED"
  const ForbiddenCode: string := "FORBIDDEN"

  /** `formatError`: internal errors are replaced by a generic message, all others pass unchanged. */
  function FormatError(e: GqlError): (r: GqlError)
    ensures e.code == Some(InternalCode) ==> r.message == "Internal server error"
    ensures e.code != Some(InternalCode) ==> r == e
    ensures r.code != Some(InternalCode)
  {
    if e.code == Some(InternalCode) then GqlError("Internal server error", None) else e
  }

  lemma FormatErrorIdempotent(e: GqlError)
    ensures FormatError(FormatError(e)) == FormatError(e)
  {
  }

  /** The code the GraphQL server attaches to a resolver error before
      formatting: the authentication and permission error classes carry their
      own codes, a plain `Error` gets INTERNAL_SERVER_ERROR. */
  function ToGql(e: Resolvers.ApiError): (g: GqlError)
    ensures g.message == e.message
    ensures g.code == Some(UnauthenticatedCode) <==> e.Unauthenticated?
    ensures g.code == Some(ForbiddenCode) <==> e.Forbidden?
    ensures g.code == Some(InternalCode) <==> e.Failure?
  {
    match e
    case Unauthenticated(m) => GqlError(m, Some(UnauthenticatedCode))
    case Forbidden(m) => GqlError(m, Some(ForbiddenCode))
    case Failure(m) => GqlError(m, Some(InternalCode))
  }

  /** Guard errors reach the client word for word; every plain error (the
      not-found and duplicate-login ones) reaches it only as
      "Internal server error". */
  lemma WhatClientsSee(e: Resolvers.ApiError)
    ensures e.Failure? ==> FormatError(ToGql(e)).message == "Internal server error"
    ensures !e.Failure? ==> FormatError(ToGql(e)).message == e.message
  {
  }

  /** A refused request reaches the client only as "Internal server error":
      the rate-limit message itself is masked by `formatError`. */
  lemma RateLimitMasked()
    ensures FormatError(RateLimitError).message == "Internal server error"
    ensures FormatError(RateLimitError).message != RateLimitMessage
  {
  }
}
