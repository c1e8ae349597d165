/**
  The API gateway's request admission and routing: a sliding-window rate
  limiter keyed by client address, the middleware that answers 429 when it
  refuses a request, and the lookup of a backend service's base URL.

  The clock is a parameter (`now`, whole seconds); the environment the
  service table reads and the downstream handler's response are parameters too.
*/
module Gateway {

  const DefaultLimit: int := 100
  const DefaultWindow: int := 60
  const RetryAfterSeconds: int := 60
  const GatewayVersion: string := "2.0.0"

  /** The request times of one client that are still inside the window ending at `now`, in order. */
  function Prune(times: seq<int>, now: int, window: int): (kept: seq<int>)
    ensures |kept| <= |times|
    ensures forall t :: t in kept <==> t in times && now - t < window
  {
    if times == [] then []
    else (if now - times[0] < window then [times[0]] else []) + Prune(times[1..], now, window)
  }

  /** Pruning keeps order: pruning a concatenation is concatenating the pruned parts. */
  lemma {:induction false} PruneAppend(a: seq<int>, b: seq<int>, now: int, window: int)
    ensures Prune(a + b, now, window) == Prune(a, now, window) + Prune(b, now, window)
    decreases |a|
  {
    if a != [] {
      var head := if now - a[0] < window then [a[0]] else [];
      assert (a + b)[0] == a[0];
      assert (a + b)[1..] == a[1..] + b;
      PruneAppend(a[1..], b, now, window);
      calc {
        Prune(a + b, now, window);
        head + Prune(a[1..] + b, now, window);
        head + (Prune(a[1..], now, window) + Prune(b, now, window));
        (head + Prune(a[1..], now, window)) + Prune(b, now, window);
        Prune(a, now, window) + Prune(b, now, window);
      }
    } else {
      assert a + b == b;
    }
  }

  /** Each timestamp inside the window is kept as often as it occurs; every other is dropped. */
  lemma {:induction false} PruneCounts(times: seq<int>, now: int, window: int)
    ensures forall t :: multiset(Prune(times, now, window))[t] == if now - t < window then multiset(times)[t] else 0
    decreases |times|
  {
    if times != [] {
      PruneCounts(times[1..], now, window);
      assert times == [times[0]] + times[1..];
    }
  }

  /** Pruning again at the same instant changes nothing. */
  lemma {:induction false} PruneIdempotent(times: seq<int>, now: int, window: int)
    ensures Prune(Prune(times, now, window), now, window) == Prune(times, now, window)
    decreases |times|
  {
    if times != [] {
      var head := if now - times[0] < window then [times[0]] else [];
      PruneAppend(head, Prune(times[1..], now, window), now, window);
      PruneIdempotent(times[1..], now, window);
      assert Prune(head, now, window) == head;
    }
  }

  /** The in-memory `rate_limit_store`: request times per client address. */
  class RateLimiter {
    var store: map<string, seq<int>>

    constructor ()
      ensures store == map[]
    {
      store := map[];
    }

    /** No client has more than `limit` request times on record. */
    ghost predicate WithinLimit(limit: int)
      reads this
    {
      forall client :: client in store ==> |store[client]| <= limit
    }

    /**
      Admits or refuses one request of `clientIp` at time `now`: the client's
      record is pruned to the window, and `now` is appended when fewer than
      `limit` times remain. Only the client's own record changes.
    */
    method CheckRateLimit(clientIp: string, now: int, limit: int := DefaultLimit, window: int := DefaultWindow)
      returns (allowed: bool)
      modifies this
      ensures var pruned := Prune(if clientIp in old(store) then old(store)[clientIp] else [], now, window);
        && allowed == (|pruned| < limit)
        && store == old(store)[clientIp := if allowed then pruned + [now] else pruned]
      ensures store.Keys == old(store).Keys + {clientIp}
      ensures forall client :: client in old(store) && client != clientIp ==> store[client] == old(store)[client]
      ensures allowed ==> |store[clientIp]| <= limit
      ensures clientIp in old(store) && |old(store)[clientIp]| <= limit ==> |store[clientIp]| <= limit
      ensures limit >= 0 && old(WithinLimit(limit)) ==> WithinLimit(limit)
      ensures clientIp !in old(store) && limit > 0 ==> allowed && store[clientIp] == [now]
    {
      if clientIp !in store {
        store := store[clientIp := []];
      }
      store := store[clientIp := Prune(store[clientIp], now, window)];
      if |store[clientIp]| >= limit {
        return false;
      }
      store := store[clientIp := store[clientIp] + [now]];
      return true;
    }

    /**
      The HTTP middleware: a refused request is answered 429 with a retry-after
      of 60 seconds and never reaches the downstream handler; an admitted one
      gets the downstream response with the gateway's version header.
    */
    method Middleware(clientIp: string, now: int, downstream: Response) returns (response: Response)
      modifies this
      ensures var pruned := Prune(if clientIp in old(store) then old(store)[clientIp] else [], now, DefaultWindow);
        && response == (if |pruned| < DefaultLimit then WithVersionHeader(downstream) else TooManyRequests)
        && store == old(store)[clientIp := if |pruned| < DefaultLimit then pruned + [now] else pruned]
      ensures store.Keys == old(store).Keys + {clientIp}
      ensures forall client :: client in old(store) && client != clientIp ==> store[client] == old(store)[client]
    {
      var allowed := CheckRateLimit(clientIp, now);
      if !allowed {
        return TooManyRequests;
      }
      return WithVersionHeader(downstream);
    }
  }

  /** The body of a response: the rate-limit error object, or what the downstream handler produced. */
  datatype Body = RateLimitError(error: string, retryAfter: int) | Content(data: string)

  /**
    A response as the gateway returns it. Header names are kept as a
    header store keeps them: lower-cased, one value per name.
  */
  datatype Response = Response(status: int, headers: map<string, string>, body: Body)

  const TooManyRequests: Response :=
    Response(429, map[], RateLimitError("Rate limit exceeded", RetryAfterSeconds))

  function LowerChar(c: char): char
  {
    if 'A' <= c <= 'Z' then (c as int + 32) as char else c
  }

  /** ASCII lower-casing, as the header store applies to every header name it is given. */
  function Lower(s: string): string
  {
    seq(|s|, i requires 0 <= i < |s| => LowerChar(s[i]))
  }

  lemma LowerIdempotent(s: string)
    ensures Lower(Lower(s)) == Lower(s)
  {
  }

  /** The header names are all lower-cased, as in any header store. */
  ghost predicate LowerCaseNames(headers: map<string, string>)
  {
    forall h :: h in headers ==> Lower(h) == h
  }

  const VersionHeader: string := "x-gateway-version"

  lemma VersionHeaderName()
    ensures Lower("X-Gateway-Version") == VersionHeader
  {
  }

  /**
    Setting a header: the name is lower-cased and replaces any value stored
    under any spelling of it; every other header stays.
  */
  function SetHeader(headers: map<string, string>, name: string, value: string): (r: map<string, string>)
    ensures r.Keys == headers.Keys + {Lower(name)}
    ensures Lower(name) in r && r[Lower(name)] == value
    ensures forall h :: h in headers && h != Lower(name) ==> r[h] == headers[h]
    ensures LowerCaseNames(headers) ==> LowerCaseNames(r)
    ensures LowerCaseNames(headers) ==> forall h :: h in r && Lower(h) == Lower(name) ==> r[h] == value
  {
    LowerIdempotent(name);
    headers[Lower(name) := value]
  }

  /** An admitted request's response: the downstream one, carrying the gateway's version header. */
  function WithVersionHeader(downstream: Response): (r: Response)
    ensures r.status == downstream.status && r.body == downstream.body
    ensures VersionHeader in r.headers && r.headers[VersionHeader] == GatewayVersion
    ensures r.headers.Keys == downstream.headers.Keys + {VersionHeader}
    ensures forall h :: h in downstream.headers && h != VersionHeader ==> r.headers[h] == downstream.headers[h]
    ensures LowerCaseNames(downstream.headers) ==> LowerCaseNames(r.headers)
  {
    VersionHeaderName();
    Response(downstream.status, SetHeader(downstream.headers, "X-Gateway-Version", GatewayVersion), downstream.body)
  }

  /** The environment variable read for each service's base URL, and its default. */
  function EnvOr(env: map<string, string>, name: string, default: string): string
  {
    if name in env then env[name] else default
  }

  const ServiceNames: set<string> := {"autohelix", "apex", "mlops", "nwu", "ai-ops", "tree-of-life"}

  /** The `SERVICES` registry: six fixed service names, base URLs from the environment or their defaults. */
  function Services(env: map<string, string>): (services: map<string, string>)
    ensures services.Keys == ServiceNames
    ensures "AUTOHELIX_URL" !in env ==> services["autohelix"] == "http://autohelix:8000"
    ensures "APEX_URL" !in env ==> services["apex"] == "http://apex:8001"
    ensures "MLOPS_URL" !in env ==> services["mlops"] == "http://mlops:8100"
    ensures "NWU_URL" !in env ==> services["nwu"] == "http://nwu:8200"
    ensures "AIOPS_URL" !in env ==> services["ai-ops"] == "http://ai-ops:8300"
    ensures "TOL_URL" !in env ==> services["tree-of-life"] == "http://tree-of-life:3000"
    ensures "AUTOHELIX_URL" in env ==> services["autohelix"] == env["AUTOHELIX_URL"]
    ensures "APEX_URL" in env ==> services["apex"] == env["APEX_URL"]
    ensures "MLOPS_URL" in env ==> services["mlops"] == env["MLOPS_URL"]
    ensures "NWU_URL" in env ==> services["nwu"] == env["NWU_URL"]
    ensures "AIOPS_URL" in env ==> services["ai-ops"] == env["AIOPS_URL"]
    ensures "TOL_URL" in env ==> services["tree-of-life"] == env["TOL_URL"]
  {
    map[
      "autohelix" := EnvOr(env, "AUTOHELIX_URL", "http://autohelix:8000"),
      "apex" := EnvOr(env, "APEX_URL", "http://apex:8001"),
      "mlops" := EnvOr(env, "MLOPS_URL", "http://mlops:8100"),
      "nwu" := EnvOr(env, "NWU_URL", "http://nwu:8200"),
      "ai-ops" := EnvOr(env, "AIOPS_URL", "http://ai-ops:8300"),
      "tree-of-life" := EnvOr(env, "TOL_URL", "http://tree-of-life:3000")
    ]
  }

  /** Where a proxied request goes: a target URL, or a 404 error. */
  datatype Route = Target(url: string) | NotFound(status: int, detail: string)

  /**
    The target of a request for `/api/{service}/{path}`: the service's base
    URL, a slash, then the path; an unknown service is a 404.
  */
  function RouteRequest(services: map<string, string>, service: string, path: string): (r: Route)
    ensures r.NotFound? <==> service !in services
    ensures r.NotFound? ==> r.status == 404 && r.detail == "Service '" + service + "' not found"
    ensures r.Target? ==> var base := services[service];
      && |r.url| == |base| + 1 + |path|
      && r.url[..|base|] == base && r.url[|base|] == '/' && r.url[|base| + 1..] == path
  {
    if service !in services then NotFound(404, "Service '" + service + "' not found")
    else Target(services[service] + "/" + path)
  }

  /** Requests for different paths of one service go to different URLs. */
  lemma RouteInjective(services: map<string, string>, service: string, path1: string, path2: string)
    requires service in services && path1 != path2
    ensures RouteRequest(services, service, path1) != RouteRequest(services, service, path2)
  {
  }
}
