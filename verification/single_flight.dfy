/**
 Two documented promises and exactly when the deadline cache keeps them: that parallel
 requests for one resource are consolidated into a single backend request, and that requests
 for other resources proceed meanwhile.
 */
module SingleFlight {
  import opened Wrappers
  import opened DeadlineCacher
  import opened CacherInvariant
  import opened CacherSafety
  import opened CacherConservation
  import opened CacherProgress

  lemma {:induction false} Take<K(!new), V(!new)>(
    staleness: nat, s: State<K, V>, a: Action<K, V>) returns (s': State<K, V>)
    requires Reachable(staleness, s) && Enabled(s, a)
    ensures s' == Next(staleness, s, a) && Reachable(staleness, s')
  {
    ReachableStep(staleness, s, a);
    s' := Next(staleness, s, a);
  }

  lemma {:induction false} InitReachable<K(!new), V(!new)>(staleness: nat) returns (s: State<K, V>)
    ensures s == Init<K, V>() && Reachable(staleness, s)
  {
    s := Init<K, V>();
    assert Legal(staleness, s, []) && After(staleness, s, []) == s;
  }

  /** One fetch of `k` completed uncacheable; its removal is due. */
  lemma {:induction false} AfterFirst<K(!new), V(!new)>(staleness: nat, k: K, v: V) returns (s: State<K, V>)
    ensures Reachable(staleness, s)
    ensures s == State(staleness, 1, [Request(k, 0, 0, Fetched(0, v, false, 0, 0))],
                       [Guard(0, 0, false, None)], [Timer(k, 0, Sleeping(staleness))], map[k := 0], [], None)
  {
    s := InitReachable(staleness);
    s := Take(staleness, s, Arrive(k));
    s := Take(staleness, s, Grant);
    s := Take(staleness, s, LookUp(0));
    s := Take(staleness, s, Complete(0, v, false));
    s := Take(staleness, s, StartSleep(0));
    s := Take(staleness, s, Tick(staleness));
  }

  /** A second fetch of `k` runs when that removal takes its guard out of the map. */
  lemma {:induction false} AfterRemoval<K(!new), V(!new)>(staleness: nat, k: K, v: V) returns (s: State<K, V>)
    ensures Reachable(staleness, s)
    ensures s == State(staleness, 3,
                       [Request(k, 0, 0, Fetched(0, v, false, 0, 0)), Request(k, 1, staleness, Fetching(1))],
                       [Guard(0, 0, false, None), Guard(1, staleness, true, None)],
                       [Timer(k, 0, Gone(2, staleness))], map[], [], None)
  {
    s := AfterFirst(staleness, k, v);
    s := Take(staleness, s, Arrive(k));
    s := Take(staleness, s, Grant);
    s := Take(staleness, s, LookUp(1));
    s := Take(staleness, s, ReadEntry(1));
    s := Take(staleness, s, LineUp(0));
    s := Take(staleness, s, Grant);
    s := Take(staleness, s, Remove(0));
    assert s.variants == map[];
  }

  /** Two fetches of one key in flight: single flight is not unconditional. */
  lemma {:induction false} TwoInFlight<K(!new), V(!new)>(staleness: nat, k: K, v: V) returns (s: State<K, V>)
    ensures Reachable(staleness, s)
    ensures |InFlight(s, k)| == 2
    ensures forall other | other != k :: Uncacheable(s, other) == {}
  {
    s := AfterRemoval(staleness, k, v);
    s := Take(staleness, s, Arrive(k));
    s := Take(staleness, s, Grant);
    s := Take(staleness, s, LookUp(2));
    assert s.reqs[1].stage == Fetching(1) && s.reqs[2].stage == Fetching(2);
    assert InFlight(s, k) == {1, 2};
  }

  /**
   Let `mayFail` say for which keys a fetch may come back uncacheable.  A key is fetched by
   one request at a time in every reachable state the environment allows exactly when its
   fetches never come back uncacheable.
   */
  lemma {:induction false} SingleFlightExactly<K(!new), V(!new)>(staleness: nat, mayFail: K -> bool, k: K, v: V)
    ensures
      (forall s: State<K, V> | Reachable(staleness, s)
        && (forall other | !mayFail(other) :: Uncacheable(s, other) == {})
         :: |InFlight(s, k)| <= 1)
      <==> !mayFail(k)
  {
    if mayFail(k) {
      var s: State<K, V> := TwoInFlight(staleness, k, v);
      assert forall other | !mayFail(other) :: other != k;
    } else {
      forall s: State<K, V> | Reachable(staleness, s) && (forall other | !mayFail(other) :: Uncacheable(s, other) == {})
        ensures |InFlight(s, k)| <= 1
      {
        FetchesBounded(staleness, s, k);
        assert Uncacheable(s, k) == {};
      }
    }
  }

  /**
   For any two keys there is a run in which a request for the second one waits at the mutex
   although only the first one is being fetched; `AllKeysWaitForTheFetch` says for how long.
   */
  lemma {:induction false} ForeignFetchBlocks<K(!new), V(!new)>(staleness: nat, k: K, other: K) returns (s: State<K, V>)
    requires k != other
    ensures Reachable(staleness, s)
    ensures s.holder == Some(Req(1)) && OwnerBlocked(s) && s.guards[s.reqs[1].stage.guard].owner == 0
    ensures |s.reqs| == 3 && s.reqs[0].key == k && s.reqs[1].key == k
    ensures s.reqs[2].key == other && s.reqs[2].stage.Waiting?
  {
    s := InitReachable(staleness);
    s := Take(staleness, s, Arrive(k));
    s := Take(staleness, s, Grant);
    s := Take(staleness, s, LookUp(0));
    s := Take(staleness, s, Arrive(k));
    s := Take(staleness, s, Grant);
    s := Take(staleness, s, LookUp(1));
    s := Take(staleness, s, Arrive(other));
  }

  // ---------- who makes the mutex wait ----------

  predicate Unanswered<V>(stage: Stage<V>) {
    stage.Waiting? || stage.Locked? || stage.Reading? || stage.Fetching?
  }

  /** Requests for a key come one after the other: each is answered or dropped before the next. */
  ghost predicate OneAtATime<K, V>(s: State<K, V>, k: K) {
    forall q: nat, r: nat | q < |s.reqs| && r < |s.reqs| && s.reqs[q].key == k && s.reqs[r].key == k
      && Unanswered(s.reqs[q].stage) && Unanswered(s.reqs[r].stage) :: q == r
  }

  /** A request for `k` owns the global mutex and cannot take its next step. */
  predicate MutexStuckOn<K(==), V>(s: State<K, V>, k: K) {
    match s.holder
    case Some(Req(h)) =>
      && h < |s.reqs| && s.reqs[h].key == k
      && !Enabled(s, LookUp(h)) && !Enabled(s, ReadEntry(h))
    case _ => false
  }

  lemma {:induction false} StuckMeansTwo<K(!new), V(!new)>(staleness: nat, s: State<K, V>, k: K)
    requires Reachable(staleness, s) && MutexStuckOn(s, k)
    ensures !OneAtATime(s, k)
  {
    ReachableInv(staleness, s);
    OwnerStuckExactly(staleness, s, s.holder.value);
    var h := s.holder.value.r;
    assert ReqOk(s, h);
    var g := s.reqs[h].stage.guard;
    assert GuardOk(s, g);
    var f := s.guards[g].owner;
    assert s.reqs[f].stage.Fetching? && s.reqs[f].key == k && f != h;
  }

  /** A second request for a key that is being fetched takes the mutex and cannot go on. */
  lemma {:induction false} SecondGetsStuck<K(!new), V(!new)>(staleness: nat, k: K) returns (s: State<K, V>)
    ensures Reachable(staleness, s) && MutexStuckOn(s, k)
    ensures forall other | other != k :: OneAtATime(s, other)
  {
    s := InitReachable(staleness);
    s := Take(staleness, s, Arrive(k));
    s := Take(staleness, s, Grant);
    s := Take(staleness, s, LookUp(0));
    s := Take(staleness, s, Arrive(k));
    s := Take(staleness, s, Grant);
    s := Take(staleness, s, LookUp(1));
  }

  /**
   Let `overlap` say for which keys a request may come while an earlier one is unanswered.  No
   request for `k` ever keeps the global mutex from everybody, in any reachable state the
   clients allow, exactly when requests for `k` do not overlap.
   */
  lemma {:induction false} MutexNeverStuckExactly<K(!new), V(!new)>(staleness: nat, overlap: K -> bool, k: K)
    ensures
      (forall s: State<K, V> | Reachable(staleness, s) && (forall other | !overlap(other) :: OneAtATime(s, other))
         :: !MutexStuckOn(s, k))
      <==> !overlap(k)
  {
    if overlap(k) {
      var s: State<K, V> := SecondGetsStuck(staleness, k);
      assert forall other | !overlap(other) :: other != k;
    } else {
      forall s: State<K, V> | Reachable(staleness, s) && MutexStuckOn(s, k) ensures !OneAtATime(s, k) {
        StuckMeansTwo(staleness, s, k);
      }
    }
  }
}
