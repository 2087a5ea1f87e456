/** `rate_limiter.py`: a sliding-window limiter that keeps, per client, the
    list of its recent requests and refuses a request once the client has made
    too many in the last minute or the last hour.

    The client id and the clock are parameters (the source reads them from the
    Flask request and `datetime.now()`); instants are whole microseconds. */
module RateLimiting {
  import opened Basics

  const MicrosPerMinute: int := 60_000_000
  const MicrosPerHour: int := 3_600_000_000

  /** One `(timestamp, endpoint)` pair of `request_history`. */
  datatype Request = Request(timestamp: int, endpoint: Option<string>)

  /** The pruning comprehension: the requests newer than one hour before `now`
      (`timestamp > cutoff_time`), in their original order. */
  function Prune(h: seq<Request>, now: int): (r: seq<Request>)
    ensures |r| <= |h|
    ensures forall q :: q in r <==> q in h && q.timestamp > now - MicrosPerHour
  {
    if h == [] then []
    else
      var last := h[|h| - 1];
      assert h == h[..|h| - 1] + [last];
      Prune(h[..|h| - 1], now) + (if last.timestamp > now - MicrosPerHour then [last] else [])
  }

  /** `recent_requests`: those with `(now - timestamp).total_seconds() < 60`. */
  function Recent(h: seq<Request>, now: int): (r: seq<Request>)
    ensures |r| <= |h|
    ensures forall q :: q in r <==> q in h && now - q.timestamp < MicrosPerMinute
  {
    if h == [] then []
    else
      var last := h[|h| - 1];
      assert h == h[..|h| - 1] + [last];
      Recent(h[..|h| - 1], now) + (if now - last.timestamp < MicrosPerMinute then [last] else [])
  }

  /** The outcome of one check for one client: whether it is refused, and the
      client's list afterwards. */
  datatype Outcome = Outcome(limited: bool, history: seq<Request>)

  /** What `is_rate_limited` does to one client's list `h`. */
  function Check(h: seq<Request>, now: int, endpoint: Option<string>, perMinute: int, perHour: int): Outcome
  {
    var pruned := Prune(h, now);
    if |Recent(pruned, now)| >= perMinute then Outcome(true, pruned)
    else if |pruned| >= perHour then Outcome(true, pruned)
    else Outcome(false, pruned + [Request(now, endpoint)])
  }

  /** Refused exactly when the last minute holds `perMinute` requests or the
      last hour `perHour`; a refused request is not recorded, an accepted one is
      appended after the surviving entries. */
  lemma CheckDecision(h: seq<Request>, now: int, endpoint: Option<string>, perMinute: int, perHour: int)
    ensures var o := Check(h, now, endpoint, perMinute, perHour);
      var pruned := Prune(h, now);
      (o.limited <==> |Recent(pruned, now)| >= perMinute || |pruned| >= perHour) &&
      (o.limited ==> o.history == pruned) &&
      (!o.limited ==> |o.history| == |pruned| + 1 && o.history[..|pruned|] == pruned &&
                      o.history[|pruned|] == Request(now, endpoint))
  {
  }

  /** After a check the list holds exactly the earlier requests of the last
      hour, plus the new request when it was accepted. */
  lemma CheckKeepsLastHour(h: seq<Request>, now: int, endpoint: Option<string>, perMinute: int, perHour: int,
                           q: Request)
    ensures var o := Check(h, now, endpoint, perMinute, perHour);
      q in o.history <==>
        (q in h && q.timestamp > now - MicrosPerHour) || (!o.limited && q == Request(now, endpoint))
  {
  }

  /** Appending a request adds it to the minute window exactly when it is
      younger than a minute. */
  lemma RecentAppend(h: seq<Request>, q: Request, t: int)
    ensures Recent(h + [q], t) == Recent(h, t) + (if t - q.timestamp < MicrosPerMinute then [q] else [])
  {
    assert (h + [q])[..|h + [q]| - 1] == h;
  }

  /** Seen from a later instant, the minute window can only hold fewer requests. */
  lemma {:induction false} RecentShrinksLater(h: seq<Request>, now: int, t: int)
    requires now <= t
    ensures |Recent(h, t)| <= |Recent(h, now)|
  {
    if h != [] {
      RecentShrinksLater(h[..|h| - 1], now, t);
    }
  }

  /** Pruning never adds to the minute window. */
  lemma {:induction false} RecentOfPrune(h: seq<Request>, now: int, t: int)
    ensures |Recent(Prune(h, now), t)| <= |Recent(h, t)|
  {
    if h != [] {
      var init, last := h[..|h| - 1], h[|h| - 1];
      assert h == init + [last];
      RecentOfPrune(init, now, t);
      RecentAppend(init, last, t);
      var p := Prune(init, now);
      if last.timestamp > now - MicrosPerHour {
        assert Prune(h, now) == p + [last];
        RecentAppend(p, last, t);
      } else {
        assert Prune(h, now) == p;
      }
    }
  }

  /** The hour bound as a class invariant: no list is longer than `perHour`. */
  lemma HourBoundPreserved(h: seq<Request>, now: int, endpoint: Option<string>, perMinute: int, perHour: int)
    requires |h| <= Max(0, perHour)
    ensures |Check(h, now, endpoint, perMinute, perHour).history| <= Max(0, perHour)
  {
  }

  /** From instant `t0` on, the minute window of `h` never holds more than the cap. */
  ghost predicate MinuteBounded(h: seq<Request>, t0: int, perMinute: int)
  {
    forall t :: t >= t0 ==> |Recent(h, t)| <= Max(0, perMinute)
  }

  /** The minute bound as an invariant: if it held from an earlier instant, it
      holds after a check made no earlier than that instant. */
  lemma MinuteBoundPreserved(h: seq<Request>, prev: int, now: int, endpoint: Option<string>,
                             perMinute: int, perHour: int)
    requires prev <= now
    requires MinuteBounded(h, prev, perMinute)
    ensures MinuteBounded(Check(h, now, endpoint, perMinute, perHour).history, now, perMinute)
  {
    var pruned := Prune(h, now);
    var o := Check(h, now, endpoint, perMinute, perHour);
    forall t | t >= now
      ensures |Recent(o.history, t)| <= Max(0, perMinute)
    {
      RecentOfPrune(h, now, t);
      if !o.limited {
        RecentAppend(pruned, Request(now, endpoint), t);
        RecentShrinksLater(pruned, now, t);
      }
    }
  }

  /** `get_limit_info`. */
  datatype LimitInfo = LimitInfo(limitPerMinute: int, limitPerHour: int, currentMinute: nat,
                                 currentHour: nat, remainingMinute: int, remainingHour: int)

  /** `RateLimitManager.get_stats`. */
  datatype LimiterStats = LimiterStats(totalClients: nat, totalRequests: nat,
                                       perMinuteLimit: int, perHourLimit: int)

  ghost function PickClient(m: map<string, seq<Request>>): (c: string)
    requires m != map[]
    ensures c in m
  {
    var c :| c in m; c
  }

  /** `sum(len(requests) for requests in request_history.values())`. */
  ghost function TotalTracked(m: map<string, seq<Request>>): nat
    decreases |m.Keys|
  {
    if m == map[] then 0
    else
      var c := PickClient(m);
      assert (m - {c}).Keys == m.Keys - {c};
      |m[c]| + TotalTracked(m - {c})
  }

  /** The sum does not depend on which client is taken first. */
  lemma {:induction false} TotalTrackedRemove(m: map<string, seq<Request>>, c: string)
    requires c in m
    ensures TotalTracked(m) == |m[c]| + TotalTracked(m - {c})
    decreases |m.Keys|
  {
    var d := PickClient(m);
    assert (m - {d}).Keys == m.Keys - {d};
    if d != c {
      assert (m - {c}).Keys == m.Keys - {c};
      TotalTrackedRemove(m - {d}, c);
      TotalTrackedRemove(m - {c}, d);
      assert m - {d} - {c} == m - {c} - {d};
    }
  }

  class RateLimiter {
    const perMinute: int
    const perHour: int
    var history: map<string, seq<Request>>

    /** No client's list is longer than the hour cap. */
    ghost predicate Valid()
      reads this
    {
      forall c :: c in history ==> |history[c]| <= Max(0, perHour)
    }

    constructor (requestsPerMinute: int, requestsPerHour: int)
      ensures perMinute == requestsPerMinute && perHour == requestsPerHour
      ensures history == map[] && Valid()
    {
      perMinute := requestsPerMinute;
      perHour := requestsPerHour;
      history := map[];
    }

    /** `is_rate_limited`: the client's list is created if absent and pruned to
        the last hour whatever the outcome; the request is refused when the
        minute window or the pruned list has reached its cap, and recorded
        otherwise. Every other client's list is left as it was. */
    method IsRateLimited(client: string, now: int, endpoint: Option<string>) returns (limited: bool)
      requires Valid()
      modifies this
      ensures Valid()
      ensures var o := Check(if client in old(history) then old(history)[client] else [], now, endpoint,
                             perMinute, perHour);
        limited == o.limited && history == old(history)[client := o.history]
      ensures forall c :: c != client ==> (c in history <==> c in old(history))
      ensures forall c :: c != client && c in old(history) ==> history[c] == old(history)[c]
    {
      // a client seen for the first time starts from an empty list
      var h := if client in history then history[client] else [];
      ghost var o := Check(h, now, endpoint, perMinute, perHour);
      HourBoundPreserved(h, now, endpoint, perMinute, perHour);
      var pruned := Prune(h, now);
      history := history[client := pruned];
      var recent := Recent(pruned, now);
      if |recent| >= perMinute {
        assert o.history == pruned;
        return true;
      }
      if |pruned| >= perHour {
        assert o.history == pruned;
        return true;
      }
      history := history[client := pruned + [Request(now, endpoint)]];
      limited := false;
    }

    /** `get_limit_info`: an untracked client has used nothing and is told the
        limits themselves as its allowance; otherwise the counts are taken from
        its list as stored (not pruned), and what remains is never negative. */
    function GetLimitInfo(client: string, now: int): (info: LimitInfo)
      reads this
      ensures info.limitPerMinute == perMinute && info.limitPerHour == perHour
      ensures client !in history ==>
        info.currentMinute == 0 && info.currentHour == 0 &&
        info.remainingMinute == perMinute && info.remainingHour == perHour
      ensures client in history ==>
        info.currentMinute == |Recent(history[client], now)| && info.currentHour == |history[client]| &&
        info.remainingMinute == Max(0, perMinute - info.currentMinute) &&
        info.remainingHour == Max(0, perHour - info.currentHour)
      ensures perMinute >= 0 && perHour >= 0 ==>
        info.remainingMinute == Max(0, perMinute - info.currentMinute) &&
        info.remainingHour == Max(0, perHour - info.currentHour)
    {
      if client !in history then
        LimitInfo(perMinute, perHour, 0, 0, perMinute, perHour)
      else
        var all := history[client];
        var minute := |Recent(all, now)|;
        var hour := |all|;
        LimitInfo(perMinute, perHour, minute, hour, Max(0, perMinute - minute), Max(0, perHour - hour))
    }

    /** `reset_client`: true exactly when the client was tracked; only that
        client's list is dropped. */
    method ResetClient(client: string) returns (reset: bool)
      requires Valid()
      modifies this
      ensures Valid()
      ensures reset <==> client in old(history)
      ensures history == old(history) - {client}
    {
      if client in history {
        history := history - {client};
        return true;
      }
      return false;
    }
  }

  /** `RateLimitManager.get_stats`: the number of tracked clients and the total
      length of their lists. */
  method GetStats(limiter: RateLimiter) returns (s: LimiterStats)
    ensures s.totalClients == |limiter.history|
    ensures s.totalRequests == TotalTracked(limiter.history)
    ensures s.perMinuteLimit == limiter.perMinute && s.perHourLimit == limiter.perHour
  {
    var rest := limiter.history;
    var total := 0;
    while rest != map[]
      invariant total + TotalTracked(rest) == TotalTracked(limiter.history)
      decreases |rest.Keys|
    {
      var c :| c in rest;
      TotalTrackedRemove(rest, c);
      assert (rest - {c}).Keys == rest.Keys - {c};
      total := total + |rest[c]|;
      rest := rest - {c};
    }
    s := LimiterStats(|limiter.history|, total, limiter.perMinute, limiter.perHour);
  }

  /** `RateLimitManager.reset_limit`, the same deletion made on the shared
      limiter for an explicitly named client. */
  method ResetLimit(limiter: RateLimiter, client: string) returns (reset: bool)
    requires limiter.Valid()
    modifies limiter
    ensures limiter.Valid()
    ensures reset <==> client in old(limiter.history)
    ensures limiter.history == old(limiter.history) - {client}
  {
    if client in limiter.history {
      limiter.history := limiter.history - {client};
      return true;
    }
    return false;
  }
}
