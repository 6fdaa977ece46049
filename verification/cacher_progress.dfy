/**
 Progress of the deadline cache: no deadlock, no endless work, every request can be served;
 and what the global mutex does make one key's requests wait for.
 */
module CacherProgress {
  import opened Wrappers
  import opened DeadlineCacher
  import opened CacherInvariant
  import opened CacherSafety

  function StageWeight<V>(stage: Stage<V>): nat {
    match stage
    case Waiting => 8
    case Locked => 7
    case Reading(_) => 6
    case Fetching(_) => 5
    case _ => 0
  }

  function TimerWeight(stage: TimerStage): nat {
    match stage
    case Spawned => 4
    case Sleeping(_) => 3
    case Lining(_, _) => 2
    case Removing(_, _) => 1
    case Gone(_, _) => 0
  }

  function ReqWork<K, V>(reqs: seq<Request<K, V>>): nat {
    if reqs == [] then 0 else ReqWork(reqs[..|reqs| - 1]) + StageWeight(reqs[|reqs| - 1].stage)
  }

  function TimerWork<K>(timers: seq<Timer<K>>): nat {
    if timers == [] then 0 else TimerWork(timers[..|timers| - 1]) + TimerWeight(timers[|timers| - 1].stage)
  }

  /** The task steps still to be taken. */
  function Work<K, V>(s: State<K, V>): nat {
    ReqWork(s.reqs) + TimerWork(s.timers)
  }

  lemma {:induction false} ReqWorkUpdate<K, V>(reqs: seq<Request<K, V>>, i: nat, q: Request<K, V>)
    requires i < |reqs|
    ensures ReqWork(reqs[i := q]) == ReqWork(reqs) - StageWeight(reqs[i].stage) + StageWeight(q.stage)
  {
    var n := |reqs| - 1;
    if i == n {
      assert reqs[i := q][..n] == reqs[..n];
    } else {
      assert reqs[i := q][..n] == reqs[..n][i := q];
      ReqWorkUpdate(reqs[..n], i, q);
    }
  }

  lemma {:induction false} TimerWorkUpdate<K>(timers: seq<Timer<K>>, i: nat, t: Timer<K>)
    requires i < |timers|
    ensures TimerWork(timers[i := t]) == TimerWork(timers) - TimerWeight(timers[i].stage) + TimerWeight(t.stage)
  {
    var n := |timers| - 1;
    if i == n {
      assert timers[i := t][..n] == timers[..n];
    } else {
      assert timers[i := t][..n] == timers[..n][i := t];
      TimerWorkUpdate(timers[..n], i, t);
    }
  }

  lemma {:induction false} SetReqWork<K, V>(s: State<K, V>, r: ReqId, stage: Stage<V>)
    requires r < |s.reqs|
    ensures ReqWork(SetReq(s, r, stage).reqs) == ReqWork(s.reqs) - StageWeight(s.reqs[r].stage) + StageWeight(stage)
  {
    ReqWorkUpdate(s.reqs, r, s.reqs[r].(stage := stage));
  }

  lemma {:induction false} SetTimerWork<K, V>(s: State<K, V>, t: TimerId, stage: TimerStage)
    requires t < |s.timers|
    ensures TimerWork(SetTimer(s, t, stage).timers)
      == TimerWork(s.timers) - TimerWeight(s.timers[t].stage) + TimerWeight(stage)
  {
    TimerWorkUpdate(s.timers, t, s.timers[t].(stage := stage));
  }

  /** An arrival brings eight steps of work, time brings none, every other action uses some up. */
  lemma {:induction false} StepUsesWork<K, V>(staleness: nat, s: State<K, V>, a: Action<K, V>)
    requires Enabled(s, a)
    ensures a.Arrive? ==> Work(Next(staleness, s, a)) == Work(s) + 8
    ensures a.Tick? ==> Work(Next(staleness, s, a)) == Work(s)
    ensures !a.Arrive? && !a.Tick? ==> Work(Next(staleness, s, a)) < Work(s)
  {
    var s' := Next(staleness, s, a);
    match a {
      case Arrive(_) =>
        assert s'.reqs[..|s.reqs|] == s.reqs;
      case Grant =>
        match s.queue[0] {
          case Req(r) => SetReqWork(s, r, Locked);
          case Tim(t) => SetTimerWork(s, t, Removing(s.timers[t].stage.ticket, s.timers[t].stage.at));
        }
      case StartSleep(t) => SetTimerWork(s, t, s'.timers[t].stage);
      case LineUp(t) => SetTimerWork(s, t, s'.timers[t].stage);
      case Remove(t) => SetTimerWork(s, t, s'.timers[t].stage);
      case Tick(_) =>
      case _ => RequestUsesWork(staleness, s, a);
    }
  }

  /** What a request does, or what is done to it, once it has queued. */
  lemma {:induction false} RequestUsesWork<K, V>(staleness: nat, s: State<K, V>, a: Action<K, V>)
    requires a.LookUp? || a.ReadEntry? || a.Complete? || a.Abandon? || a.Cancel?
    requires Enabled(s, a)
    ensures Work(Next(staleness, s, a)) < Work(s)
  {
    var s' := Next(staleness, s, a);
    match a {
      case LookUp(r) => SetReqWork(s, r, s'.reqs[r].stage);
      case ReadEntry(r) => SetReqWork(s, r, s'.reqs[r].stage);
      case Complete(r, _, _) =>
        SetReqWork(s, r, s'.reqs[r].stage);
        assert s'.timers[..|s.timers|] == s.timers;
      case Abandon(i) => SetReqWork(s, s.queue[i].r, Cancelled);
      case Cancel(r) => SetReqWork(s, r, Cancelled);
    }
  }

  function Arrivals<K, V>(acts: seq<Action<K, V>>): nat {
    if acts == [] then 0 else (if acts[0].Arrive? then 1 else 0) + Arrivals(acts[1..])
  }

  function TaskSteps<K, V>(acts: seq<Action<K, V>>): nat {
    if acts == [] then 0 else (if acts[0].Arrive? || acts[0].Tick? then 0 else 1) + TaskSteps(acts[1..])
  }

  lemma {:induction false} WorkBudget<K, V>(staleness: nat, s: State<K, V>, acts: seq<Action<K, V>>)
    requires Legal(staleness, s, acts)
    ensures TaskSteps(acts) + Work(After(staleness, s, acts)) <= Work(s) + 8 * Arrivals(acts)
    decreases |acts|
  {
    if acts != [] {
      StepUsesWork(staleness, s, acts[0]);
      WorkBudget(staleness, Next(staleness, s, acts[0]), acts[1..]);
    }
  }

  /** No run takes more than eight task steps per arrival, the removal timers included. */
  lemma {:induction false} BoundedWork<K, V>(staleness: nat, acts: seq<Action<K, V>>)
    requires Legal(staleness, Init<K, V>(), acts)
    ensures TaskSteps(acts) <= 8 * Arrivals(acts)
  {
    WorkBudget(staleness, Init<K, V>(), acts);
  }

  predicate Answered<V>(stage: Stage<V>) {
    stage.Hit? || stage.Fetched? || stage.Cancelled?
  }

  predicate Finished<K, V>(s: State<K, V>) {
    && (forall r | 0 <= r < |s.reqs| :: Answered(s.reqs[r].stage))
    && (forall t | 0 <= t < |s.timers| :: s.timers[t].stage.Gone?)
  }

  /** Nothing is left to do but to wait for sleeps to end. */
  predicate OnlySleepers<K, V>(s: State<K, V>) {
    && (forall r | 0 <= r < |s.reqs| :: Answered(s.reqs[r].stage))
    && (forall t | 0 <= t < |s.timers| :: s.timers[t].stage.Gone? || s.timers[t].stage.Sleeping?)
  }

  /** Steps the tasks take by themselves: nobody new arrives, nobody is dropped, time stands still. */
  predicate OwnStep<K, V>(a: Action<K, V>) {
    !a.Arrive? && !a.Abandon? && !a.Cancel? && !a.Tick?
  }

  lemma {:induction false} HolderMoves<K, V>(staleness: nat, s: State<K, V>, v: V) returns (a: Action<K, V>)
    requires Inv(staleness, s) && s.holder.Some?
    ensures OwnStep(a) && Enabled(s, a)
  {
    match s.holder.value {
      case Tim(t) => a := Remove(t);
      case Req(r) =>
        assert ReqOk(s, r);
        if s.reqs[r].stage.Locked? {
          a := LookUp(r);
        } else {
          var g := s.reqs[r].stage.guard;
          assert GuardOk(s, g);
          a := if s.guards[g].locked then Complete(s.guards[g].owner, v, true) else ReadEntry(r);
        }
    }
  }

  /**
   No deadlock: unless everything is finished, some task can step by itself or only sleeps are
   left.  A waiting request waits for the mutex owner, the owner at most for one fetch, and a
   fetch for nobody.
   */
  lemma {:induction false} NoDeadlock<K, V>(staleness: nat, s: State<K, V>, v: V) returns (a: Action<K, V>)
    requires Inv(staleness, s) && !Finished(s)
    ensures Enabled(s, a)
    ensures OwnStep(a) || (a.Tick? && OnlySleepers(s))
  {
    if s.holder.Some? {
      a := HolderMoves(staleness, s, v);
    } else if |s.queue| > 0 {
      a := Grant;
      assert InLine(s, s.queue[0]);
    } else if r: nat :| r < |s.reqs| && !Answered(s.reqs[r].stage) {
      assert ReqOk(s, r);
      a := Complete(r, v, true);
    } else if t: nat :| t < |s.timers| && !s.timers[t].stage.Gone? && !s.timers[t].stage.Sleeping? {
      assert TimerOk(staleness, s, t);
      a := StartSleep(t);
    } else {
      a := Tick(0);
    }
  }

  /** One more step of the drain; a sleep is waited out and ended in one go. */
  lemma {:induction false} DrainStep<K, V>(staleness: nat, s: State<K, V>, v: V) returns (acts: seq<Action<K, V>>)
    requires Inv(staleness, s) && !Finished(s)
    ensures Legal(staleness, s, acts)
    ensures forall i | 0 <= i < |acts| :: OwnStep(acts[i]) || acts[i].Tick?
    ensures Work(After(staleness, s, acts)) < Work(s)
  {
    var a := NoDeadlock(staleness, s, v);
    if OwnStep(a) {
      acts := [a];
      StepUsesWork(staleness, s, a);
      OneStep(staleness, s, a);
    } else {
      var t: nat :| t < |s.timers| && !s.timers[t].stage.Gone?;
      var wait: Action<K, V> := Tick(s.timers[t].stage.due);
      var s' := Next(staleness, s, wait);
      acts := [wait, LineUp(t)];
      StepUsesWork(staleness, s, wait);
      StepUsesWork(staleness, s', LineUp(t));
      assert acts[1..] == [LineUp(t)];
      assert Legal(staleness, s', [LineUp(t)]);
      assert After(staleness, s', [LineUp(t)]) == Next(staleness, s', LineUp(t));
    }
  }

  lemma {:induction false} StepDropsNobody<K, V>(staleness: nat, s: State<K, V>, a: Action<K, V>, r: ReqId)
    requires Enabled(s, a) && (OwnStep(a) || a.Tick?) && r < |s.reqs| && !s.reqs[r].stage.Cancelled?
    ensures r < |Next(staleness, s, a).reqs| && !Next(staleness, s, a).reqs[r].stage.Cancelled?
  {
  }

  lemma {:induction false} RunDropsNobody<K, V>(staleness: nat, s: State<K, V>, acts: seq<Action<K, V>>, r: ReqId)
    requires Legal(staleness, s, acts) && r < |s.reqs| && !s.reqs[r].stage.Cancelled?
    requires forall i | 0 <= i < |acts| :: OwnStep(acts[i]) || acts[i].Tick?
    ensures r < |After(staleness, s, acts).reqs| && !After(staleness, s, acts).reqs[r].stage.Cancelled?
    decreases |acts|
  {
    if acts != [] {
      StepDropsNobody(staleness, s, acts[0], r);
      RunDropsNobody(staleness, Next(staleness, s, acts[0]), acts[1..], r);
    }
  }

  lemma {:induction false} Drain<K, V>(staleness: nat, s: State<K, V>, v: V) returns (acts: seq<Action<K, V>>)
    requires Inv(staleness, s)
    ensures Legal(staleness, s, acts)
    ensures forall i | 0 <= i < |acts| :: OwnStep(acts[i]) || acts[i].Tick?
    ensures Finished(After(staleness, s, acts))
    decreases Work(s)
  {
    if Finished(s) {
      acts := [];
    } else {
      var first := DrainStep(staleness, s, v);
      RunKeepsInv(staleness, s, first);
      var rest := Drain(staleness, After(staleness, s, first), v);
      LegalConcat(staleness, s, first, rest);
      acts := first + rest;
    }
  }

  /** What is left under `k` is the empty guard of a dropped fetch. */
  predicate LeftOver<K, V>(s: State<K, V>, k: K)
    requires k in s.variants
  {
    && s.variants[k] < |s.guards| && s.guards[s.variants[k]].content.None?
    && s.guards[s.variants[k]].owner < |s.reqs|
    && s.reqs[s.guards[s.variants[k]].owner].stage.Cancelled?
  }

  /**
   From every reachable state, without any new arrival or drop, all tasks can finish: each
   request not dropped before gets its answer, and the map is left with nothing but the empty
   guards of dropped fetches.
   */
  lemma {:induction false} EveryoneCanBeServed<K(!new), V(!new)>(staleness: nat, s: State<K, V>, v: V)
    returns (acts: seq<Action<K, V>>, end: State<K, V>)
    requires Reachable(staleness, s)
    ensures Legal(staleness, s, acts) && end == After(staleness, s, acts)
    ensures forall i | 0 <= i < |acts| :: OwnStep(acts[i]) || acts[i].Tick?
    ensures Finished(end) && |s.reqs| <= |end.reqs|
    ensures forall r | 0 <= r < |s.reqs| && !s.reqs[r].stage.Cancelled? ::
      end.reqs[r].stage.Hit? || end.reqs[r].stage.Fetched?
    ensures forall k | k in end.variants :: LeftOver(end, k)
  {
    ReachableInv(staleness, s);
    acts := Drain(staleness, s, v);
    end := After(staleness, s, acts);
    RunKeepsInv(staleness, s, acts);
    ReqsGrow(staleness, s, acts);
    forall r: nat | r < |s.reqs| && !s.reqs[r].stage.Cancelled?
      ensures end.reqs[r].stage.Hit? || end.reqs[r].stage.Fetched?
    {
      RunDropsNobody(staleness, s, acts, r);
    }
    forall k | k in end.variants
      ensures LeftOver(end, k)
    {
      FinishedLeavesOnlyDropped(staleness, end, k);
    }
  }

  lemma {:induction false} ReqsGrow<K, V>(staleness: nat, s: State<K, V>, acts: seq<Action<K, V>>)
    requires Legal(staleness, s, acts)
    ensures |s.reqs| <= |After(staleness, s, acts).reqs|
    decreases |acts|
  {
    if acts != [] {
      HistoryKept(staleness, s, acts[0]);
      ReqsGrow(staleness, Next(staleness, s, acts[0]), acts[1..]);
    }
  }

  lemma {:induction false} FinishedLeavesOnlyDropped<K, V>(staleness: nat, s: State<K, V>, k: K)
    requires Inv(staleness, s) && Finished(s) && k in s.variants
    ensures LeftOver(s, k)
  {
    var g := s.variants[k];
    assert GuardOk(s, g);
    var f := s.guards[g].owner;
    assert forall t: nat | t < |s.timers| :: s.timers[t].stage.Gone? && TimerOk(staleness, s, t);
    assert ReqOk(s, f);
  }

  // ---------- what one key's requests do wait for ----------

  /** The mutex owner waits for the write lock that a fetch holds on a guard. */
  predicate OwnerBlocked<K, V>(s: State<K, V>) {
    match s.holder
    case Some(Req(h)) =>
      h < |s.reqs| && s.reqs[h].stage.Reading? && s.reqs[h].stage.guard < |s.guards|
        && s.guards[s.reqs[h].stage.guard].locked
    case _ => false
  }

  /** The owner of the mutex is stuck exactly when it reads a guard that a fetch has locked. */
  lemma {:induction false} OwnerStuckExactly<K(!new), V(!new)>(staleness: nat, s: State<K, V>, w: Waiter)
    requires Reachable(staleness, s) && s.holder == Some(w)
    ensures OwnerBlocked(s) <==>
      !(match w
        case Req(h) => Enabled(s, LookUp(h)) || Enabled(s, ReadEntry(h))
        case Tim(t) => Enabled(s, Remove(t)))
  {
    ReachableInv(staleness, s);
    if w.Req? { assert ReqOk(s, w.r); }
  }

  lemma {:induction false} BlockedStep<K, V>(
    staleness: nat, s: State<K, V>, a: Action<K, V>, h: ReqId, f: ReqId, q: ReqId)
    requires Inv(staleness, s) && Enabled(s, a)
    requires s.holder == Some(Req(h)) && OwnerBlocked(s) && s.guards[s.reqs[h].stage.guard].owner == f
    requires q < |s.reqs| && (s.reqs[q].stage.Waiting? || s.reqs[q].stage.Cancelled?)
    requires !(a.Complete? && a.r == f) && a != Cancel(f) && a != Cancel(h)
    ensures
      var s' := Next(staleness, s, a);
      && s'.holder == Some(Req(h)) && OwnerBlocked(s') && s'.guards[s'.reqs[h].stage.guard].owner == f
      && q < |s'.reqs| && (s'.reqs[q].stage.Waiting? || s'.reqs[q].stage.Cancelled?)
  {
    InvGivesActorOk(staleness, s, a);
    assert ReqOk(s, h);
    if a.Abandon? { assert InLine(s, s.queue[a.i]); }
  }

  /**
   While the owner of the mutex reads a guard locked by the fetch of `f`, no waiting request,
   of whatever key, is served until that fetch ends or one of the two is dropped.
   */
  lemma {:induction false} AllKeysWaitForTheFetch<K, V>(
    staleness: nat, s: State<K, V>, acts: seq<Action<K, V>>, h: ReqId, f: ReqId, q: ReqId)
    requires Inv(staleness, s) && Legal(staleness, s, acts)
    requires s.holder == Some(Req(h)) && OwnerBlocked(s) && s.guards[s.reqs[h].stage.guard].owner == f
    requires q < |s.reqs| && (s.reqs[q].stage.Waiting? || s.reqs[q].stage.Cancelled?)
    requires forall i | 0 <= i < |acts| ::
      !(acts[i].Complete? && acts[i].r == f) && acts[i] != Cancel(f) && acts[i] != Cancel(h)
    ensures
      var s' := After(staleness, s, acts);
      q < |s'.reqs| && (s'.reqs[q].stage.Waiting? || s'.reqs[q].stage.Cancelled?)
    decreases |acts|
  {
    if acts != [] {
      BlockedStep(staleness, s, acts[0], h, f, q);
      StepKeepsInv(staleness, s, acts[0]);
      AllKeysWaitForTheFetch(staleness, Next(staleness, s, acts[0]), acts[1..], h, f, q);
    }
  }
}
