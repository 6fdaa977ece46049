/**
 Safety of the deadline cache over whole runs: what a hit may return and how old it may be,
 how many fetches of one key run at once, and how often the backend is asked.
 */
module CacherSafety {
  import opened Wrappers
  import opened DeadlineCacher
  import opened CacherInvariant

  lemma {:induction false} ReachableInv<K(!new), V(!new)>(staleness: nat, s: State<K, V>)
    requires Reachable(staleness, s)
    ensures Inv(staleness, s)
  {
    var acts :| Legal(staleness, Init<K, V>(), acts) && After(staleness, Init<K, V>(), acts) == s;
    StartInv(staleness, Init<K, V>());
    RunKeepsInv(staleness, Init<K, V>(), acts);
  }

  lemma {:induction false} ReachableStep<K(!new), V(!new)>(staleness: nat, s: State<K, V>, a: Action<K, V>)
    requires Reachable(staleness, s) && Enabled(s, a)
    ensures Reachable(staleness, Next(staleness, s, a))
  {
    var acts :| Legal(staleness, Init<K, V>(), acts) && After(staleness, Init<K, V>(), acts) == s;
    OneStep(staleness, s, a);
    LegalConcat(staleness, Init<K, V>(), acts, [a]);
  }

  lemma {:induction false} OneStep<K, V>(staleness: nat, s: State<K, V>, a: Action<K, V>)
    requires Enabled(s, a)
    ensures Legal(staleness, s, [a]) && After(staleness, s, [a]) == Next(staleness, s, a)
  {
    assert [a][1..] == [];
  }

  // ---------- what a hit returns ----------

  lemma {:induction false} HitOwner<K, V>(staleness: nat, s: State<K, V>, r: ReqId)
    requires Inv(staleness, s) && r < |s.reqs| && s.reqs[r].stage.Hit?
    ensures
      var g := s.reqs[r].stage.guard;
      && g < |s.guards|
      && s.guards[g].owner < |s.reqs|
      && s.guards[g].owner != r
      && (var f := s.reqs[s.guards[g].owner];
          && f.key == s.reqs[r].key
          && f.stage.Fetched? && f.stage.cacheable && f.stage.guard == g
          && f.stage.value == s.reqs[r].stage.value
          && s.guards[g].since <= f.stage.at <= s.now)
  {
    assert ReqOk(s, r);
    assert GuardOk(s, s.reqs[r].stage.guard);
    assert ReqOk(s, s.guards[s.reqs[r].stage.guard].owner);
  }

  /** A hit is the value of another request's completed, cacheable fetch under the same key. */
  lemma {:induction false} HitIsOneCacheableFetch<K(!new), V(!new)>(staleness: nat, s: State<K, V>, r: ReqId)
    requires Reachable(staleness, s)
    requires r < |s.reqs| && s.reqs[r].stage.Hit?
    ensures
      exists f: nat ::
        && f < |s.reqs| && f != r
        && s.reqs[f].key == s.reqs[r].key
        && s.reqs[f].stage.Fetched? && s.reqs[f].stage.cacheable
        && s.reqs[f].stage.guard == s.reqs[r].stage.guard
        && s.reqs[f].stage.value == s.reqs[r].stage.value
  {
    ReachableInv(staleness, s);
    HitOwner(staleness, s, r);
  }

  /** No two requests ever fetch into one guard. */
  lemma {:induction false} OneFetchPerGuard<K(!new), V(!new)>(staleness: nat, s: State<K, V>, f1: ReqId, f2: ReqId)
    requires Reachable(staleness, s)
    requires f1 < |s.reqs| && f2 < |s.reqs|
    requires s.reqs[f1].stage.Fetching? || s.reqs[f1].stage.Fetched?
    requires s.reqs[f2].stage.Fetching? || s.reqs[f2].stage.Fetched?
    requires s.reqs[f1].stage.guard == s.reqs[f2].stage.guard
    ensures f1 == f2
  {
    ReachableInv(staleness, s);
    assert ReqOk(s, f1) && ReqOk(s, f2);
  }

  /** Once filled, a guard keeps its value for the rest of the run. */
  lemma {:induction false} FilledOnce<K, V>(staleness: nat, s: State<K, V>, acts: seq<Action<K, V>>, g: GuardId)
    requires Inv(staleness, s) && Legal(staleness, s, acts)
    requires g < |s.guards| && s.guards[g].content.Some?
    ensures g < |After(staleness, s, acts).guards|
    ensures After(staleness, s, acts).guards[g].content == s.guards[g].content
    decreases |acts|
  {
    if acts != [] {
      var a := acts[0];
      assert GuardOk(s, g);
      if a.Complete? { assert ReqOk(s, a.r); }
      StepKeepsInv(staleness, s, a);
      FilledOnce(staleness, Next(staleness, s, a), acts[1..], g);
    }
  }

  // ---------- how old a hit may be ----------

  lemma {:induction false} HitHasEarlierTicket<K, V>(staleness: nat, s: State<K, V>, r: ReqId, t: TimerId)
    requires Inv(staleness, s)
    requires r < |s.reqs| && s.reqs[r].stage.Hit? && t < |s.timers| && Queued(s.timers[t].stage)
    requires s.timers[t].stage.ticket < s.reqs[r].ticket
    ensures s.reqs[r].stage.guard < |s.guards| && s.guards[s.reqs[r].stage.guard].owner != s.timers[t].fetch
  {
    assert ReqOk(s, r);
    assert Led(s.reqs[r].stage) == Some(s.reqs[r].stage.guard);
  }

  lemma {:induction false} ArrivesBehind<K, V>(staleness: nat, s: State<K, V>, key: K, t: TimerId)
    requires Inv(staleness, s) && t < |s.timers| && Queued(s.timers[t].stage)
    ensures
      var s' := Next(staleness, s, Arrive(key));
      s'.timers == s.timers && |s'.reqs| == |s.reqs| + 1 && s.timers[t].stage.ticket < s'.reqs[|s.reqs|].ticket
  {
    assert TimerOk(staleness, s, t);
  }

  /**
   A request that reaches the mutex after the removal of some fetch has queued there is never
   served that fetch's value, whatever happens before and after.
   */
  lemma {:induction false} NoHitBehindRemoval<K(!new), V(!new)>(
    staleness: nat, s: State<K, V>, t: TimerId, key: K, acts: seq<Action<K, V>>)
    requires Reachable(staleness, s) && t < |s.timers| && Queued(s.timers[t].stage)
    requires Legal(staleness, Next(staleness, s, Arrive(key)), acts)
    ensures
      var r := |s.reqs|;
      var later := After(staleness, Next(staleness, s, Arrive(key)), acts);
      && r < |later.reqs| && t < |later.timers|
      && (later.reqs[r].stage.Hit? ==>
            later.reqs[r].stage.guard < |later.guards|
            && later.guards[later.reqs[r].stage.guard].owner != later.timers[t].fetch)
  {
    ReachableInv(staleness, s);
    var arrived := Next(staleness, s, Arrive(key));
    ArrivesBehind(staleness, s, key, t);
    StepKeepsInv(staleness, s, Arrive(key));
    TicketsStay(staleness, arrived, acts, |s.reqs|, t);
    RunKeepsInv(staleness, arrived, acts);
    var later := After(staleness, arrived, acts);
    if later.reqs[|s.reqs|].stage.Hit? {
      HitHasEarlierTicket(staleness, later, |s.reqs|, t);
    }
  }

  lemma {:induction false} TicketsStayStep<K, V>(staleness: nat, s: State<K, V>, a: Action<K, V>, r: ReqId, t: TimerId)
    requires Enabled(s, a) && r < |s.reqs| && t < |s.timers| && Queued(s.timers[t].stage)
    ensures
      var s' := Next(staleness, s, a);
      && r < |s'.reqs| && t < |s'.timers| && Queued(s'.timers[t].stage)
      && s'.reqs[r].ticket == s.reqs[r].ticket
      && s'.timers[t].stage.ticket == s.timers[t].stage.ticket
  {
  }

  lemma {:induction false} TicketsStay<K, V>(
    staleness: nat, s: State<K, V>, acts: seq<Action<K, V>>, r: ReqId, t: TimerId)
    requires Legal(staleness, s, acts) && r < |s.reqs| && t < |s.timers| && Queued(s.timers[t].stage)
    ensures
      var s' := After(staleness, s, acts);
      && r < |s'.reqs| && t < |s'.timers| && Queued(s'.timers[t].stage)
      && s'.reqs[r].ticket == s.reqs[r].ticket
      && s'.timers[t].stage.ticket == s.timers[t].stage.ticket
    decreases |acts|
  {
    if acts != [] {
      TicketsStayStep(staleness, s, acts[0], r, t);
      TicketsStay(staleness, Next(staleness, s, acts[0]), acts[1..], r, t);
    }
  }

  /** No timer that still has to queue is overdue by more than `lag`. */
  predicate OnTime<K, V>(staleness: nat, lag: nat, s: State<K, V>) {
    forall t: nat | t < |s.timers| && !Queued(s.timers[t].stage) ::
      s.timers[t].fetch < |s.reqs| && s.reqs[s.timers[t].fetch].stage.Fetched?
      ==> s.now <= s.reqs[s.timers[t].fetch].stage.at + staleness + lag
  }

  /** Timers queue within `lag` of being due, all along the run. */
  predicate OnTimeRun<K(==), V>(staleness: nat, lag: nat, s: State<K, V>, acts: seq<Action<K, V>>)
    requires Legal(staleness, s, acts)
    decreases |acts|
  {
    OnTime(staleness, lag, s) && (acts == [] || OnTimeRun(staleness, lag, Next(staleness, s, acts[0]), acts[1..]))
  }

  predicate QueuedOnTime<K, V>(staleness: nat, lag: nat, s: State<K, V>) {
    forall t: nat | t < |s.timers| && Queued(s.timers[t].stage) ::
      s.timers[t].fetch < |s.reqs| && s.reqs[s.timers[t].fetch].stage.Fetched?
      && s.timers[t].stage.at <= s.reqs[s.timers[t].fetch].stage.at + staleness + lag
  }

  lemma {:induction false} FetchedStays<K, V>(staleness: nat, s: State<K, V>, a: Action<K, V>, r: ReqId)
    requires Enabled(s, a) && r < |s.reqs| && s.reqs[r].stage.Fetched?
    requires a.Abandon? || a.Grant? ==> QueueOk(s)
    ensures Next(staleness, s, a).reqs[r] == s.reqs[r]
  {
  }

  lemma {:induction false} OnTimeStep<K, V>(staleness: nat, lag: nat, s: State<K, V>, a: Action<K, V>)
    requires Inv(staleness, s) && Enabled(s, a) && OnTime(staleness, lag, s) && QueuedOnTime(staleness, lag, s)
    ensures QueuedOnTime(staleness, lag, Next(staleness, s, a))
  {
    var s' := Next(staleness, s, a);
    forall t: nat | t < |s'.timers| && Queued(s'.timers[t].stage)
      ensures s'.timers[t].fetch < |s'.reqs| && s'.reqs[s'.timers[t].fetch].stage.Fetched?
        && s'.timers[t].stage.at <= s'.reqs[s'.timers[t].fetch].stage.at + staleness + lag
    {
      TicketKept(staleness, s, a, t);
      assert TimerOk(staleness, s, t);
      FetchedStays(staleness, s, a, s.timers[t].fetch);
    }
  }

  lemma {:induction false} OnTimeRunQueuedOnTime<K, V>(
    staleness: nat, lag: nat, s: State<K, V>, acts: seq<Action<K, V>>)
    requires Inv(staleness, s) && Legal(staleness, s, acts)
    requires OnTimeRun(staleness, lag, s, acts) && QueuedOnTime(staleness, lag, s)
    ensures OnTime(staleness, lag, After(staleness, s, acts))
    ensures QueuedOnTime(staleness, lag, After(staleness, s, acts))
    decreases |acts|
  {
    if acts != [] {
      OnTimeStep(staleness, lag, s, acts[0]);
      StepKeepsInv(staleness, s, acts[0]);
      OnTimeRunQueuedOnTime(staleness, lag, Next(staleness, s, acts[0]), acts[1..]);
    }
  }

  lemma {:induction false} HitAgeInState<K, V>(staleness: nat, lag: nat, s: State<K, V>, r: ReqId)
    requires Inv(staleness, s) && OnTime(staleness, lag, s) && QueuedOnTime(staleness, lag, s)
    requires r < |s.reqs| && s.reqs[r].stage.Hit?
    ensures
      var g := s.reqs[r].stage.guard;
      && g < |s.guards| && s.guards[g].owner < |s.reqs|
      && s.reqs[s.guards[g].owner].stage.Fetched?
      && s.reqs[r].arrived <= s.reqs[s.guards[g].owner].stage.at + staleness + lag
  {
    HitOwner(staleness, s, r);
    var f := s.guards[s.reqs[r].stage.guard].owner;
    var t := s.reqs[f].stage.timer;
    assert ReqOk(s, r) && ReqOk(s, f);
    if Queued(s.timers[t].stage) {
      assert Led(s.reqs[r].stage) == Some(s.reqs[r].stage.guard);
      assert s.reqs[r].ticket <= s.timers[t].stage.ticket;
    }
  }

  lemma {:induction false} OnTimeFrom<K, V>(
    staleness: nat, lag: nat, s0: State<K, V>, acts: seq<Action<K, V>>, s: State<K, V>)
    requires s0 == Init<K, V>() && Legal(staleness, s0, acts) && OnTimeRun(staleness, lag, s0, acts)
    requires s == After(staleness, s0, acts)
    ensures Inv(staleness, s) && OnTime(staleness, lag, s) && QueuedOnTime(staleness, lag, s)
  {
    hide *;
    StartOnTime(staleness, lag, s0);
    RunKeepsInv(staleness, s0, acts);
    OnTimeRunQueuedOnTime(staleness, lag, s0, acts);
  }

  lemma {:induction false} StartOnTime<K, V>(staleness: nat, lag: nat, s: State<K, V>)
    requires s == Init<K, V>()
    ensures Inv(staleness, s) && QueuedOnTime(staleness, lag, s)
  {
    hide Inv;
    StartInv(staleness, s);
  }

  /**
   If timers queue within `lag` of being due, every hit reached the cache no later than
   `staleness + lag` after its fetch completed, whatever other keys were blocking meanwhile.
   */
  lemma {:induction false} HitAge<K, V>(staleness: nat, lag: nat, acts: seq<Action<K, V>>, s: State<K, V>, r: ReqId)
    requires Legal(staleness, Init<K, V>(), acts) && OnTimeRun(staleness, lag, Init<K, V>(), acts)
    requires s == After(staleness, Init<K, V>(), acts)
    requires r < |s.reqs| && s.reqs[r].stage.Hit?
    ensures
      var g := s.reqs[r].stage.guard;
      && g < |s.guards| && s.guards[g].owner < |s.reqs|
      && s.reqs[s.guards[g].owner].stage.Fetched?
      && s.reqs[r].arrived <= s.reqs[s.guards[g].owner].stage.at + staleness + lag
  {
    OnTimeFrom(staleness, lag, Init<K, V>(), acts, s);
    HitAgeInState(staleness, lag, s, r);
  }
}
