/** `createRateLimiter(maxRequests, windowMs)` (`server/routes.ts`): a
    fixed-window request counter per client address, kept in a map that the
    middleware updates in place. The clock is a parameter. */
module RateLimiter {
  import opened FirearmsSchema

  /** The limits the routes install: 300 requests a minute for the API, 10 a
      minute for the scraping endpoints. */
  const GeneralMaxRequests: nat := 300
  const GeneralWindowMs: nat := 60000
  const ScrapingMaxRequests: nat := 10
  const ScrapingWindowMs: nat := 60000

  /** A client's entry: requests counted in the current window, and the time
      after which the window is over. */
  datatype Window = Window(count: nat, resetTime: int)

  /** Whether the request goes on to the next handler (otherwise it is
      answered with status 429), and the client's entry afterwards. */
  datatype Decision = Decision(allowed: bool, entry: Window)

  /** `req.ip || req.connection.remoteAddress || 'unknown'`. */
  function ClientKey(ip: Option<string>, remoteAddress: Option<string>): (key: string)
    ensures key != ""
    ensures key == "unknown" || Some(key) == ip || Some(key) == remoteAddress
  {
    if Truthy(ip, "") then ip.value else if Truthy(remoteAddress, "") then remoteAddress.value else "unknown"
  }

  /** Requests that carry the same ip share one window whatever their remote
      address, requests with different ips never share one, and requests with
      no address at all share the single "unknown" window. */
  lemma ClientKeyShared(ip: Option<string>, ip': Option<string>, a: Option<string>, b: Option<string>)
    ensures Truthy(ip, "") ==> ClientKey(ip, a) == ClientKey(ip, b)
    ensures Truthy(ip, "") && Truthy(ip', "") ==> (ClientKey(ip, a) == ClientKey(ip', b) <==> ip == ip')
    ensures !Truthy(ip, "") && !Truthy(a, "") && !Truthy(ip', "") && !Truthy(b, "") ==>
      ClientKey(ip, a) == ClientKey(ip', b)
  {
  }

  /** One request at `now` from a client whose entry is `entry`: a missing or
      finished window starts a new one with this request counted; a full
      window refuses; otherwise the request is counted and allowed. */
  function Step(entry: Option<Window>, now: int, maxRequests: nat, windowMs: nat): Decision {
    if entry.None? || now > entry.value.resetTime then Decision(true, Window(1, now + windowMs))
    else if entry.value.count >= maxRequests then Decision(false, entry.value)
    else Decision(true, entry.value.(count := entry.value.count + 1))
  }

  function Max(a: nat, b: nat): nat {
    if a >= b then a else b
  }

  /** Each entry counts at least one and at most `maxRequests` requests (one
      when the limit is 0, since a new window always admits its first). */
  predicate Bounded(w: Window, maxRequests: nat) {
    1 <= w.count <= Max(1, maxRequests)
  }

  /** A step keeps the entry bounded, and a refusal leaves it as it was. */
  lemma StepBounded(entry: Option<Window>, now: int, maxRequests: nat, windowMs: nat)
    requires entry.Some? ==> Bounded(entry.value, maxRequests)
    ensures Bounded(Step(entry, now, maxRequests, windowMs).entry, maxRequests)
    ensures !Step(entry, now, maxRequests, windowMs).allowed ==> entry == Some(Step(entry, now, maxRequests, windowMs).entry)
  {
  }

  /** The number of requests allowed when one client sends requests at the
      given times, starting from `entry`. */
  function Allowed(entry: Option<Window>, times: seq<int>, maxRequests: nat, windowMs: nat): nat
    decreases |times|
  {
    if times == [] then 0
    else
      var d := Step(entry, times[0], maxRequests, windowMs);
      (if d.allowed then 1 else 0) + Allowed(Some(d.entry), times[1..], maxRequests, windowMs)
  }

  /** Inside an open window that has counted `w.count` requests, at most
      `maxRequests - w.count` more are allowed. */
  lemma {:induction false} WithinWindow(w: Window, times: seq<int>, maxRequests: nat, windowMs: nat)
    requires forall i :: 0 <= i < |times| ==> times[i] <= w.resetTime
    ensures Allowed(Some(w), times, maxRequests, windowMs) <= if w.count >= maxRequests then 0 else maxRequests - w.count
    decreases |times|
  {
    if times != [] {
      var d := Step(Some(w), times[0], maxRequests, windowMs);
      assert d.entry.resetTime == w.resetTime;
      WithinWindow(d.entry, times[1..], maxRequests, windowMs);
    }
  }

  /** The fixed-window guarantee: once a request opens a window at `t0`, no
      more than `maxRequests` requests of that client are allowed up to the
      window's end `t0 + windowMs` (at least the first, when the limit is 0). */
  lemma FixedWindowBound(entry: Option<Window>, t0: int, times: seq<int>, maxRequests: nat, windowMs: nat)
    requires entry.None? || t0 > entry.value.resetTime
    requires forall i :: 0 <= i < |times| ==> times[i] <= t0 + windowMs
    ensures Allowed(entry, [t0] + times, maxRequests, windowMs) <= Max(1, maxRequests)
  {
    var w := Window(1, t0 + windowMs);
    assert ([t0] + times)[1..] == times;
    WithinWindow(w, times, maxRequests, windowMs);
  }

  /** The scraping limiter lets a client through at most 10 times in the
      minute after its window opens. */
  lemma ScrapingLimit(entry: Option<Window>, t0: int, times: seq<int>)
    requires entry.None? || t0 > entry.value.resetTime
    requires forall i :: 0 <= i < |times| ==> t0 <= times[i] <= t0 + 60000
    ensures Allowed(entry, [t0] + times, ScrapingMaxRequests, ScrapingWindowMs) <= 10
  {
    FixedWindowBound(entry, t0, times, ScrapingMaxRequests, ScrapingWindowMs);
  }

  /** A client whose window has run out is always let through. */
  lemma ExpiredWindowAllows(w: Window, now: int, maxRequests: nat, windowMs: nat)
    requires now > w.resetTime
    ensures Step(Some(w), now, maxRequests, windowMs) == Decision(true, Window(1, now + windowMs))
  {
  }

  class Limiter {
    const maxRequests: nat
    const windowMs: nat
    /** The `requests` map of the closure, keyed by client address. */
    var requests: map<string, Window>

    ghost predicate Valid()
      reads this
    {
      forall c :: c in requests ==> Bounded(requests[c], maxRequests)
    }

    constructor(maxRequests: nat, windowMs: nat)
      ensures Valid() && requests == map[]
      ensures this.maxRequests == maxRequests && this.windowMs == windowMs
    {
      this.maxRequests := maxRequests;
      this.windowMs := windowMs;
      requests := map[];
    }

    /** The middleware, for a request from `ip` / `remoteAddress` at `now`:
        only the requesting client's entry changes. */
    method Handle(ip: Option<string>, remoteAddress: Option<string>, now: int) returns (allowed: bool)
      requires Valid()
      modifies this
      ensures Valid()
      ensures var key := ClientKey(ip, remoteAddress);
        var d := Step(if key in old(requests) then Some(old(requests)[key]) else None, now, maxRequests, windowMs);
        allowed == d.allowed && requests == old(requests)[key := d.entry]
    {
      var key := ClientKey(ip, remoteAddress);
      var entry := if key in requests then Some(requests[key]) else None;
      StepBounded(entry, now, maxRequests, windowMs);
      if entry.None? || now > entry.value.resetTime {
        requests := requests[key := Window(1, now + windowMs)];
        return true;
      }
      if entry.value.count >= maxRequests {
        assert requests == requests[key := entry.value];
        return false;
      }
      requests := requests[key := entry.value.(count := entry.value.count + 1)];
      allowed := true;
    }
  }
}
