/** The per-IP sliding-window rate limiter of backend/app.py: a dictionary
    from client IP to the timestamps of its admitted requests, pruned and
    appended to in place. Timestamps are whole seconds. */
module RateLimit {
  /** The timestamps still inside the window at `now`, in their old order. */
  function Prune(ts: seq<int>, now: int, window: int): (r: seq<int>)
    ensures |r| <= |ts|
    decreases |ts|
  {
    if ts == [] then []
    else (if now - ts[0] < window then [ts[0]] else []) + Prune(ts[1..], now, window)
  }

  /** A timestamp survives pruning exactly when it was there and is younger
      than the window. */
  lemma {:induction false} PruneMembers(ts: seq<int>, now: int, window: int, t: int)
    ensures t in Prune(ts, now, window) <==> t in ts && now - t < window
    decreases |ts|
  {
    if ts != [] {
      PruneMembers(ts[1..], now, window, t);
      assert ts == [ts[0]] + ts[1..];
    }
  }

  /** Pruning a second time at the same moment removes nothing more. */
  lemma {:induction false} PruneIdempotent(ts: seq<int>, now: int, window: int)
    ensures Prune(Prune(ts, now, window), now, window) == Prune(ts, now, window)
    decreases |ts|
  {
    if ts != [] {
      PruneIdempotent(ts[1..], now, window);
      var rest := Prune(ts[1..], now, window);
      if now - ts[0] < window {
        assert Prune(ts, now, window) == [ts[0]] + rest;
        assert ([ts[0]] + rest)[1..] == rest;
        assert Prune([ts[0]] + rest, now, window) == [ts[0]] + Prune(rest, now, window);
      } else {
        assert Prune(ts, now, window) == rest;
      }
    }
  }

  /** Pruning at an earlier moment never removes a timestamp that a later
      pruning would keep: pruning at `earlier` and then at `later` is the
      same as pruning at `later` alone. */
  lemma {:induction false} PruneLater(ts: seq<int>, earlier: int, later: int, window: int)
    requires earlier <= later
    ensures Prune(Prune(ts, earlier, window), later, window) == Prune(ts, later, window)
    decreases |ts|
  {
    if ts != [] {
      PruneLater(ts[1..], earlier, later, window);
      var rest := Prune(ts[1..], earlier, window);
      var kept := if later - ts[0] < window then [ts[0]] else [];
      assert Prune(ts, later, window) == kept + Prune(ts[1..], later, window);
      if earlier - ts[0] < window {
        assert Prune(ts, earlier, window) == [ts[0]] + rest;
        assert ([ts[0]] + rest)[1..] == rest;
        assert Prune([ts[0]] + rest, later, window) == kept + Prune(rest, later, window);
      } else {
        assert Prune(ts, earlier, window) == rest;
        assert kept == [];
      }
    }
  }

  function Max0(n: int): nat {
    if n < 0 then 0 else n
  }

  /** The decision `check_rate_limit` takes for one IP: whether the request
      is admitted, and the IP's list afterwards. */
  function Admit(entries: seq<int>, now: int, limit: int, window: int): (r: (bool, seq<int>))
    ensures r.0 <==> |Prune(entries, now, window)| < limit
    ensures forall t :: t in r.1 <==> (t in entries && now - t < window) || (r.0 && t == now)
  {
    var pruned := Prune(entries, now, window);
    assert forall t :: t in pruned <==> t in entries && now - t < window by {
      forall t ensures t in pruned <==> t in entries && now - t < window {
        PruneMembers(entries, now, window, t);
      }
    }
    if |pruned| >= limit then (false, pruned) else (true, pruned + [now])
  }

  /** An admitted request leaves at most `limit` timestamps, the new one last;
      a refused one leaves the pruned list, which is already at the limit. */
  lemma AdmitBound(entries: seq<int>, now: int, limit: int, window: int)
    requires |entries| <= Max0(limit)
    ensures |Admit(entries, now, limit, window).1| <= Max0(limit)
    ensures Admit(entries, now, limit, window).0 ==>
              Admit(entries, now, limit, window).1 == Prune(entries, now, window) + [now]
    ensures !Admit(entries, now, limit, window).0 ==>
              && Admit(entries, now, limit, window).1 == Prune(entries, now, window)
              && |Prune(entries, now, window)| >= limit
  {
  }

  /** Pruning distributes over concatenation. */
  lemma {:induction false} PruneConcat(a: seq<int>, b: seq<int>, now: int, window: int)
    ensures Prune(a + b, now, window) == Prune(a, now, window) + Prune(b, now, window)
    decreases |a|
  {
    if a != [] {
      PruneConcat(a[1..], b, now, window);
      assert (a + b)[1..] == a[1..] + b;
    } else {
      assert a + b == b;
    }
  }

  predicate NonDecreasing(times: seq<int>) {
    forall i, j :: 0 <= i < j < |times| ==> times[i] <= times[j]
  }

  /** Requests from one IP at the given times, replayed through `Admit`
      from an empty list: the decisions, and the IP's list afterwards. */
  function Replay(times: seq<int>, limit: int, window: int): (r: (seq<bool>, seq<int>))
    ensures |r.0| == |times|
    decreases |times|
  {
    if times == [] then ([], [])
    else
      var before := Replay(times[..|times| - 1], limit, window);
      var step := Admit(before.1, times[|times| - 1], limit, window);
      (before.0 + [step.0], step.1)
  }

  /** The times of the admitted requests, in order. */
  function Admitted(times: seq<int>, decisions: seq<bool>): seq<int>
    requires |decisions| == |times|
    decreases |times|
  {
    if times == [] then []
    else Admitted(times[..|times| - 1], decisions[..|decisions| - 1])
         + (if decisions[|decisions| - 1] then [times[|times| - 1]] else [])
  }

  /** The stored list never exceeds the limit. */
  lemma {:induction false} ReplayBound(times: seq<int>, limit: int, window: int)
    ensures |Replay(times, limit, window).1| <= Max0(limit)
    decreases |times|
  {
    if times != [] {
      ReplayBound(times[..|times| - 1], limit, window);
      AdmitBound(Replay(times[..|times| - 1], limit, window).1, times[|times| - 1], limit, window);
    }
  }

  /** With a non-decreasing clock, what survives pruning at a later time
      `now` is exactly the admitted requests that lie inside the window
      before `now`: earlier prunings lost nothing that still matters. */
  lemma {:induction false} ReplayWindow(times: seq<int>, limit: int, window: int, now: int)
    requires NonDecreasing(times)
    requires forall i :: 0 <= i < |times| ==> times[i] <= now
    ensures Prune(Replay(times, limit, window).1, now, window)
            == Prune(Admitted(times, Replay(times, limit, window).0), now, window)
    decreases |times|
  {
    if times != [] {
      var n := |times|;
      var init := times[..n - 1];
      var last := times[n - 1];
      var before := Replay(init, limit, window);
      var r := Replay(times, limit, window);
      assert r.0[..n - 1] == before.0;
      ReplayWindow(init, limit, window, last);
      var tail := if r.0[n - 1] then [last] else [];
      assert Admitted(times, r.0) == Admitted(init, before.0) + tail;
      assert r.1 == Prune(before.1, last, window) + tail;
      calc {
        Prune(r.1, now, window);
        { PruneConcat(Prune(before.1, last, window), tail, now, window); }
        Prune(Prune(before.1, last, window), now, window) + Prune(tail, now, window);
        Prune(Prune(Admitted(init, before.0), last, window), now, window) + Prune(tail, now, window);
        { PruneLater(Admitted(init, before.0), last, now, window); }
        Prune(Admitted(init, before.0), now, window) + Prune(tail, now, window);
        { PruneConcat(Admitted(init, before.0), tail, now, window); }
        Prune(Admitted(times, r.0), now, window);
      }
    }
  }

  /** The sliding-window guarantee. With a non-decreasing clock, a request is
      admitted exactly when fewer than `limit` earlier admitted requests from
      the same IP lie within the window before it; and no window ending at a
      request ever holds more than `limit` admitted requests. */
  lemma SlidingWindow(times: seq<int>, limit: int, window: int)
    requires NonDecreasing(times) && times != []
    ensures var n := |times|;
            var decisions := Replay(times, limit, window).0;
            && (decisions[n - 1] <==>
                |Prune(Admitted(times[..n - 1], decisions[..n - 1]), times[n - 1], window)| < limit)
            && |Prune(Admitted(times, decisions), times[n - 1], window)| <= Max0(limit)
  {
    var n := |times|;
    var init := times[..n - 1];
    var last := times[n - 1];
    var before := Replay(init, limit, window);
    var decisions := Replay(times, limit, window).0;
    assert decisions[..n - 1] == before.0;
    ReplayWindow(init, limit, window, last);
    ReplayBound(init, limit, window);
    var tail := if decisions[n - 1] then [last] else [];
    assert Admitted(times, decisions) == Admitted(init, before.0) + tail;
    PruneConcat(Admitted(init, before.0), tail, last, window);
  }

  class RateLimiter {
    const limit: int
    const window: int
    var store: map<string, seq<int>>

    /** No IP ever holds more timestamps than the limit allows. */
    ghost predicate Valid()
      reads this
    {
      forall ip :: ip in store ==> |store[ip]| <= Max0(limit)
    }

    /** The IP's list, empty when it has none yet (the `defaultdict`). */
    function Entries(ip: string): seq<int>
      reads this
    {
      if ip in store then store[ip] else []
    }

    constructor (limit: int, window: int)
      ensures Valid()
      ensures this.limit == limit && this.window == window && store == map[]
    {
      this.limit := limit;
      this.window := window;
      store := map[];
    }

    /** `check_rate_limit(ip)` at time `now`: the IP's list is pruned to the
        window and, when fewer than `limit` remain, `now` is appended and the
        request admitted. Only the IP's own entry changes; it exists
        afterwards even when it did not before. */
    method CheckRateLimit(ip: string, now: int) returns (allowed: bool)
      requires Valid()
      modifies this
      ensures Valid() && ip in store
      ensures (allowed, store[ip]) == Admit(old(Entries(ip)), now, limit, window)
      ensures store == old(store)[ip := store[ip]]
      ensures forall t :: t in store[ip] ==> t == now || now - t < window
    {
      store := store[ip := Prune(Entries(ip), now, window)];
      forall t | t in store[ip] ensures now - t < window {
        PruneMembers(old(Entries(ip)), now, window, t);
      }
      if |store[ip]| >= limit {
        return false;
      }
      store := store[ip := store[ip] + [now]];
      return true;
    }
  }
}
