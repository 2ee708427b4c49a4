/** The in-memory fixed-window rate limiter (rate-limit.service.ts, rate-limit.guard.ts).
    Times are milliseconds and every call carries its own clock reading. */
module RateLimit {

  datatype Entry = Entry(count: nat, expiresAt: int)

  type Memory = map<string, Entry>

  /** The memory after one request: a new window when there is none or it has run out. */
  function Counted(memory: Memory, key: string, windowMs: int, now: int): Memory {
    if key !in memory || memory[key].expiresAt <= now
    then memory[key := Entry(1, now + windowMs)]
    else memory[key := Entry(memory[key].count + 1, memory[key].expiresAt)]
  }

  class RateLimitService {
    var memory: Memory

    constructor ()
      ensures memory == map[]
    {
      memory := map[];
    }

    method Increment(key: string, windowMs: int, now: int) returns (count: nat)
      modifies this
      ensures memory == Counted(old(memory), key, windowMs, now)
      ensures count == memory[key].count
    {
      var entry := Entry(0, now + windowMs);
      if key in memory && now < memory[key].expiresAt {
        entry := memory[key];
      }
      entry := entry.(count := entry.count + 1);
      memory := memory[key := entry];
      return entry.count;
    }

    /** The guard: a request passes when its count is within the limit of its policy. */
    method CanActivate(key: string, limit: nat, windowMs: int, now: int) returns (allowed: bool)
      modifies this
      ensures memory == Counted(old(memory), key, windowMs, now)
      ensures allowed <==> memory[key].count <= limit
    {
      var count := Increment(key, windowMs, now);
      return count <= limit;
    }
  }

  // ---------------------------------------------------------------- runs over many keys

  datatype Request = Request(key: string, now: int)

  /** The memory after `requests`, where `window` gives the window length of each key's policy. */
  function MemoryAfter(requests: seq<Request>, window: string -> int): Memory {
    if requests == [] then map[]
    else
      var last := requests[|requests| - 1];
      Counted(MemoryAfter(requests[..|requests| - 1], window), last.key, window(last.key), last.now)
  }

  ghost predicate Ordered(requests: seq<Request>) {
    forall i, j :: 0 <= i < j < |requests| ==> requests[i].now <= requests[j].now
  }

  /** How many requests for `key` passed at times from `from` to `to`, both included. */
  function PassedIn(requests: seq<Request>, window: string -> int, limit: nat, key: string, from: int, to: int): nat {
    if requests == [] then 0
    else
      var last := requests[|requests| - 1];
      PassedIn(requests[..|requests| - 1], window, limit, key, from, to)
      + if last.key == key && from <= last.now <= to && Count(requests, window) <= limit then 1 else 0
  }

  /** The count the last request of a run is given. */
  function Count(requests: seq<Request>, window: string -> int): nat
    requires requests != []
  {
    MemoryAfter(requests, window)[requests[|requests| - 1].key].count
  }

  function Min(a: nat, b: nat): nat {
    if a <= b then a else b
  }

  /** What the entry of `key` says about the passes inside [from, from + window]. */
  ghost predicate Accounted(
    requests: seq<Request>, window: string -> int, limit: nat, key: string, from: int, to: int)
  {
    var memory := MemoryAfter(requests, window);
    var passed := PassedIn(requests, window, limit, key, from, to);
    if key !in memory then passed == 0
    else
      var entry := memory[key];
      var start := entry.expiresAt - window(key);
      && requests != [] && start <= requests[|requests| - 1].now
      && (entry.expiresAt <= from ==> passed == 0)
      && (start <= from ==> passed <= Min(entry.count, limit))
      && (from < start <= to ==> passed <= limit + Min(entry.count, limit))
      && (to < start ==> passed <= 2 * limit)
  }

  lemma {:induction false} RunsAreAccounted(
    requests: seq<Request>, window: string -> int, limit: nat, key: string, from: int, to: int)
    requires Ordered(requests) && window(key) > 0 && to <= from + window(key)
    ensures Accounted(requests, window, limit, key, from, to)
    decreases |requests|
  {
    if requests != [] {
      RunsAreAccounted(requests[..|requests| - 1], window, limit, key, from, to);
    }
  }

  /** Any stretch of one window length, both ends included, lets at most twice the limit through. */
  lemma AtMostTwoLimitsAnywhere(requests: seq<Request>, window: string -> int, limit: nat, key: string, from: int)
    requires Ordered(requests) && window(key) > 0
    ensures PassedIn(requests, window, limit, key, from, from + window(key)) <= 2 * limit
  {
    RunsAreAccounted(requests, window, limit, key, from, from + window(key));
  }

  /** Whether request `i` opened a window. */
  ghost predicate Opens(requests: seq<Request>, window: string -> int, i: nat)
    requires i < |requests|
  {
    var before := MemoryAfter(requests[..i], window);
    requests[i].key in before ==> before[requests[i].key].expiresAt <= requests[i].now
  }

  /** What the run so far says about the window request `i` opened. */
  ghost predicate WindowHolds(requests: seq<Request>, window: string -> int, limit: nat, i: nat)
    requires i < |requests|
  {
    var key, start := requests[i].key, requests[i].now;
    var memory := MemoryAfter(requests, window);
    var passed := PassedIn(requests, window, limit, key, start, start + window(key) - 1);
    && key in memory
    && (memory[key].expiresAt == start + window(key) ==> passed <= Min(memory[key].count, limit))
    && (memory[key].expiresAt != start + window(key) ==> memory[key].expiresAt >= start + 2 * window(key))
    && passed <= limit
  }

  lemma WindowOpens(requests: seq<Request>, window: string -> int, limit: nat)
    requires requests != [] && Ordered(requests) && Opens(requests, window, |requests| - 1)
    requires window(requests[|requests| - 1].key) > 0
    ensures WindowHolds(requests, window, limit, |requests| - 1)
  {
    var last := requests[|requests| - 1];
    RunsAreAccounted(requests[..|requests| - 1], window, limit, last.key, last.now, last.now + window(last.key) - 1);
  }

  lemma WindowGoesOn(requests: seq<Request>, window: string -> int, limit: nat, i: nat)
    requires Ordered(requests) && i < |requests| - 1 && window(requests[i].key) > 0
    requires WindowHolds(requests[..|requests| - 1], window, limit, i)
    ensures WindowHolds(requests, window, limit, i)
  {
    var init := requests[..|requests| - 1];
    var key, start := requests[i].key, requests[i].now;
    assert init[i] == requests[i];
    RunsAreAccounted(init, window, limit, key, start, start + window(key) - 1);
  }

  lemma {:induction false} WindowsHold(requests: seq<Request>, window: string -> int, limit: nat, i: nat)
    requires i < |requests| && Ordered(requests) && Opens(requests, window, i) && window(requests[i].key) > 0
    ensures WindowHolds(requests, window, limit, i)
    decreases |requests|
  {
    if i == |requests| - 1 {
      WindowOpens(requests, window, limit);
    } else {
      var init := requests[..|requests| - 1];
      assert init[..i] == requests[..i];
      WindowsHold(init, window, limit, i);
      WindowGoesOn(requests, window, limit, i);
    }
  }

  /** A window lets at most `limit` requests through, wherever the run stops. */
  lemma AtMostLimitPerWindow(requests: seq<Request>, window: string -> int, limit: nat, i: nat)
    requires i < |requests| && Ordered(requests) && Opens(requests, window, i) && window(requests[i].key) > 0
    ensures var key, start := requests[i].key, requests[i].now;
            PassedIn(requests, window, limit, key, start, start + window(key) - 1) <= limit
  {
    WindowsHold(requests, window, limit, i);
  }

  function RequestsFor(requests: seq<Request>, key: string): nat {
    if requests == [] then 0
    else RequestsFor(requests[..|requests| - 1], key) + if requests[|requests| - 1].key == key then 1 else 0
  }

  lemma OneMoreRequest(requests: seq<Request>, last: Request, window: string -> int)
    ensures MemoryAfter(requests + [last], window)
         == Counted(MemoryAfter(requests, window), last.key, window(last.key), last.now)
  {
    assert (requests + [last])[..|requests|] == requests;
  }

  lemma OneMoreFor(requests: seq<Request>, last: Request, key: string)
    ensures RequestsFor(requests + [last], key) == RequestsFor(requests, key) + if last.key == key then 1 else 0
  {
    assert (requests + [last])[..|requests|] == requests;
  }

  lemma LastApart<T>(before: seq<T>, part: seq<T>)
    requires part != []
    ensures part == part[..|part| - 1] + [part[|part| - 1]]
    ensures before + part == (before + part[..|part| - 1]) + [part[|part| - 1]]
  {
  }

  /** The entry of the key after `before`, if there is one, has run out by `now`. */
  ghost predicate Free(before: seq<Request>, window: string -> int, key: string, now: int) {
    key in MemoryAfter(before, window) ==> MemoryAfter(before, window)[key].expiresAt <= now
  }

  ghost predicate CountIs(requests: seq<Request>, window: string -> int, key: string, count: nat, expiresAt: int) {
    key in MemoryAfter(requests, window) && MemoryAfter(requests, window)[key] == Entry(count, expiresAt)
  }

  lemma FirstCount(before: seq<Request>, first: Request, window: string -> int)
    requires Free(before, window, first.key, first.now)
    ensures CountIs(before + [first], window, first.key, 1, first.now + window(first.key))
  {
    OneMoreRequest(before, first, window);
  }

  lemma NextCount(
    requests: seq<Request>, last: Request, window: string -> int, key: string, count: nat, expiresAt: int)
    requires CountIs(requests, window, key, count, expiresAt) && last.now < expiresAt
    ensures CountIs(requests + [last], window, key, count + (if last.key == key then 1 else 0), expiresAt)
  {
    OneMoreRequest(requests, last, window);
  }

  /** The requests of a window that opens after `before`. */
  lemma {:induction false} CountsIn(before: seq<Request>, part: seq<Request>, window: string -> int)
    requires part != [] && Free(before, window, part[0].key, part[0].now)
    requires forall k | 0 <= k < |part| :: part[k].now < part[0].now + window(part[0].key)
    ensures CountIs(before + part, window, part[0].key, RequestsFor(part, part[0].key),
                    part[0].now + window(part[0].key))
    decreases |part|
  {
    var init, last := part[..|part| - 1], part[|part| - 1];
    LastApart(before, part);
    OneMoreFor(init, last, part[0].key);
    if |part| == 1 {
      FirstCount(before, last, window);
    } else {
      CountsIn(before, init, window);
      NextCount(before + init, last, window, part[0].key, RequestsFor(init, part[0].key),
                part[0].now + window(part[0].key));
    }
  }

  /** Inside a window the count is the number of requests since the one that opened it, so a request passes
      exactly when fewer than `limit` requests of its key came before it in the window. */
  lemma CountsAreExact(requests: seq<Request>, window: string -> int, i: nat)
    requires i < |requests| && Ordered(requests) && Opens(requests, window, i)
    requires requests[|requests| - 1].now < requests[i].now + window(requests[i].key)
    ensures var key := requests[i].key;
            && key in MemoryAfter(requests, window)
            && MemoryAfter(requests, window)[key]
               == Entry(RequestsFor(requests[i..], key), requests[i].now + window(key))
  {
    SplitAt(requests, i);
    CountsFrom(requests[..i], requests[i..], window, requests);
  }

  lemma SplitAt(requests: seq<Request>, i: nat)
    requires i < |requests| && Ordered(requests)
    ensures requests[..i] + requests[i..] == requests && requests[i..][0] == requests[i]
    ensures forall k | 0 <= k < |requests[i..]| :: requests[i..][k].now <= requests[|requests| - 1].now
  {
    assert forall k | 0 <= k < |requests[i..]| :: requests[i..][k] == requests[i + k];
  }

  lemma CountsFrom(before: seq<Request>, part: seq<Request>, window: string -> int, all: seq<Request>)
    requires part != [] && before + part == all && Free(before, window, part[0].key, part[0].now)
    requires forall k | 0 <= k < |part| :: part[k].now < part[0].now + window(part[0].key)
    ensures CountIs(all, window, part[0].key, RequestsFor(part, part[0].key), part[0].now + window(part[0].key))
  {
    CountsIn(before, part, window);
  }

  // ---------------------------------------------------------------- the bound of twice the limit is reached

  function Burst(key: string, now: int, n: nat): seq<Request> {
    seq(n, _ => Request(key, now))
  }

  /** A request inside the stretch that is given a count within the limit passes. */
  lemma OneMorePasses(
    requests: seq<Request>, last: Request, window: string -> int, limit: nat, from: int, to: int)
    requires from <= last.now <= to && window(last.key) > 0
    ensures var all := requests + [last];
            var memory := MemoryAfter(requests, window);
            && MemoryAfter(all, window) == Counted(memory, last.key, window(last.key), last.now)
            && PassedIn(all, window, limit, last.key, from, to)
               == PassedIn(requests, window, limit, last.key, from, to)
                  + if MemoryAfter(all, window)[last.key].count <= limit then 1 else 0
  {
    assert (requests + [last])[..|requests|] == requests;
  }

  lemma BurstGrows(before: seq<Request>, key: string, now: int, n: nat)
    ensures before + Burst(key, now, n + 1) == (before + Burst(key, now, n)) + [Request(key, now)]
  {
  }

  lemma {:induction false} BurstPasses(
    before: seq<Request>, key: string, now: int, n: nat, window: string -> int, limit: nat, from: int, to: int)
    requires n <= limit && from <= now <= to && window(key) > 0
    requires key in MemoryAfter(before, window) ==> MemoryAfter(before, window)[key].expiresAt <= now
    ensures var all := before + Burst(key, now, n);
            && PassedIn(all, window, limit, key, from, to) == PassedIn(before, window, limit, key, from, to) + n
            && (n > 0 ==>
                  key in MemoryAfter(all, window) && MemoryAfter(all, window)[key] == Entry(n, now + window(key)))
            && (n == 0 ==> MemoryAfter(all, window) == MemoryAfter(before, window))
    decreases n
  {
    if n == 0 {
      assert before + Burst(key, now, 0) == before;
    } else {
      BurstPasses(before, key, now, n - 1, window, limit, from, to);
      BurstGrows(before, key, now, n - 1);
      OneMorePasses(before + Burst(key, now, n - 1), Request(key, now), window, limit, from, to);
    }
  }

  /** For every limit and window the bound is attained: a full burst at each end of the stretch. */
  lemma TwoLimitsIsReached(key: string, window: string -> int, limit: nat)
    requires window(key) > 0
    ensures exists requests :: Ordered(requests) && PassedIn(requests, window, limit, key, 0, window(key)) == 2 * limit
  {
    var first := [] + Burst(key, 0, limit);
    BurstPasses([], key, 0, limit, window, limit, 0, window(key));
    BurstPasses(first, key, window(key), limit, window, limit, 0, window(key));
    var requests := first + Burst(key, window(key), limit);
    assert Ordered(requests);
  }
}
