/** The bound on parallel fetches of one key is attained, whatever the number of uncacheable completions. */
module FetchBound {
  import opened Wrappers
  import opened DeadlineCacher
  import opened CacherConservation
  import opened SingleFlight

  /** A request for `k` would fetch: the map links nothing to `k`, or an empty guard nobody has locked. */
  predicate Fetchable<K(==), V>(s: State<K, V>, k: K) {
    && s.holder.None? && s.queue == []
    && (k in s.variants ==>
          s.variants[k] < |s.guards| && !s.guards[s.variants[k]].locked && s.guards[s.variants[k]].content.None?)
  }

  /** One more fetch of `k` starts and nothing else happens. */
  lemma {:induction false} StartFetch<K(!new), V(!new)>(staleness: nat, s: State<K, V>, k: K) returns (s': State<K, V>)
    requires Reachable(staleness, s) && Fetchable(s, k)
    ensures Reachable(staleness, s')
    ensures s' == s.(
      tickets := s.tickets + 1,
      reqs := s.reqs + [Request(k, s.tickets, s.now, Fetching(|s.guards|))],
      guards := s.guards + [Guard(|s.reqs|, s.now, true, None)],
      variants := s.variants[k := |s.guards|])
  {
    hide Reachable;
    var r := |s.reqs|;
    s' := Take(staleness, s, Arrive(k));
    s' := Take(staleness, s', Grant);
    s' := Take(staleness, s', LookUp(r));
    if k in s.variants {
      s' := Take(staleness, s', ReadEntry(r));
    }
  }

  /** The last request's fetch comes back uncacheable, and its removal falls due. */
  lemma {:induction false} FailFetch<K(!new), V(!new)>(staleness: nat, s: State<K, V>, v: V) returns (s': State<K, V>)
    requires Reachable(staleness, s) && s.reqs != []
    requires
      var r := |s.reqs| - 1;
      s.reqs[r].stage.Fetching? && s.reqs[r].stage.guard < |s.guards| && s.guards[s.reqs[r].stage.guard].content.None?
    ensures Reachable(staleness, s')
    ensures
      var r := |s.reqs| - 1;
      var g := s.reqs[r].stage.guard;
      s' == s.(
        now := s.now + staleness,
        reqs := s.reqs[r := s.reqs[r].(stage := Fetched(g, v, false, s.now, |s.timers|))],
        guards := s.guards[g := s.guards[g].(locked := false)],
        timers := s.timers + [Timer(s.reqs[r].key, r, Sleeping(s.now + staleness))])
  {
    hide Reachable;
    var r := |s.reqs| - 1;
    s' := Take(staleness, s, Complete(r, v, false));
    s' := Take(staleness, s', StartSleep(|s.timers|));
    s' := Take(staleness, s', Tick(staleness));
    assert s'.guards == s.guards[s.reqs[r].stage.guard := s.guards[s.reqs[r].stage.guard].(locked := false)];
  }

  /** A due removal takes whatever guard its key is linked to out of the map. */
  lemma {:induction false} RunRemoval<K(!new), V(!new)>(
    staleness: nat, s: State<K, V>, t: TimerId) returns (s': State<K, V>)
    requires Reachable(staleness, s) && s.holder.None? && s.queue == []
    requires t < |s.timers| && s.timers[t].stage.Sleeping? && s.timers[t].stage.due <= s.now
    ensures Reachable(staleness, s')
    ensures s' == s.(
      tickets := s.tickets + 1,
      timers := s.timers[t := s.timers[t].(stage := Gone(s.tickets, s.now))],
      variants := s.variants - {s.timers[t].key})
  {
    hide Reachable;
    s' := Take(staleness, s, LineUp(t));
    s' := Take(staleness, s', Grant);
    s' := Take(staleness, s', Remove(t));
  }

  /** All of `n` requests for `k` came back uncacheable; the removals of all but the first `m` are due. */
  predicate Failed<K(==), V>(s: State<K, V>, k: K, n: nat, m: nat) {
    && n <= |s.reqs| && |s.timers| == n
    && (forall r | 0 <= r < n :: s.reqs[r].key == k && s.reqs[r].stage.Fetched? && !s.reqs[r].stage.cacheable)
    && (forall t | m <= t < n :: s.timers[t].key == k && s.timers[t].stage.Sleeping? && s.timers[t].stage.due <= s.now)
  }

  /** The requests from the `n`-th on are fetching `k`. */
  predicate FetchingFrom<K(==), V>(s: State<K, V>, k: K, n: nat) {
    forall r | n <= r < |s.reqs| :: s.reqs[r].key == k && s.reqs[r].stage.Fetching?
  }

  lemma {:induction false} FailMany<K(!new), V(!new)>(staleness: nat, k: K, v: V, n: nat) returns (s: State<K, V>)
    ensures Reachable(staleness, s) && Fetchable(s, k) && |s.reqs| == n && Failed(s, k, n, 0)
  {
    hide Reachable;
    if n == 0 {
      s := InitReachable(staleness);
    } else {
      s := FailMany(staleness, k, v, n - 1);
      s := StartFetch(staleness, s, k);
      s := FailFetch(staleness, s, v);
    }
  }

  lemma {:induction false} RemoveMany<K(!new), V(!new)>(
    staleness: nat, k: K, v: V, n: nat, m: nat) returns (s: State<K, V>)
    requires m <= n
    ensures Reachable(staleness, s) && s.holder.None? && s.queue == []
    ensures |s.reqs| == n + m + 1 && Failed(s, k, n, m) && FetchingFrom(s, k, n)
    decreases m
  {
    hide Reachable;
    if m == 0 {
      s := FailMany(staleness, k, v, n);
      s := StartFetch(staleness, s, k);
    } else {
      s := RemoveMany(staleness, k, v, n, m - 1);
      s := RunRemoval(staleness, s, m - 1);
      s := StartFetch(staleness, s, k);
    }
  }

  function Range(a: nat, b: nat): (r: set<nat>)
    requires a <= b
    ensures |r| == b - a
    ensures forall i: nat :: i in r <==> a <= i < b
    decreases b
  {
    if a == b then {} else Range(a, b - 1) + {b - 1}
  }

  /** For every `n`, a reachable state with `n` uncacheable completions of `k` and `n + 1` fetches of it in flight. */
  lemma {:induction false} BoundAttained<K(!new), V(!new)>(staleness: nat, k: K, v: V, n: nat) returns (s: State<K, V>)
    ensures Reachable(staleness, s)
    ensures |Uncacheable(s, k)| == n && |InFlight(s, k)| == n + 1
  {
    hide Reachable;
    s := RemoveMany(staleness, k, v, n, n);
    assert Uncacheable(s, k) == Range(0, n);
    assert InFlight(s, k) == Range(n, n + n + 1);
  }
}
