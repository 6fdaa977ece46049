/**
 The deadline cacher as an object.  Each method of the first group is one stretch of the code
 between two awaits; it updates the shared fields in the order of the source and takes one
 action of the protocol.  `Drive` schedules them at will; `GetOrInsertWith` is the whole call,
 with other tasks running at each of its awaits.
 */
module CacherTasks {
  import opened Wrappers
  import opened DeadlineCacher
  import opened CacherInvariant
  import opened CacherSafety
  import opened CacherProgress
  import opened SingleFlight

  /** What request `r` awaited has come: the mutex, the read lock, or the future. */
  predicate GoesOn<K(==), V(==)>(s: State<K, V>, s': State<K, V>, r: ReqId)
    requires r < |s.reqs|
  {
    && r < |s'.reqs|
    && (match s.reqs[r].stage
        case Waiting => s'.reqs[r].stage.Locked?
        case Reading(g) => s'.reqs[r].stage == Reading(g) && g < |s'.guards| && !s'.guards[g].locked
        case stage => s'.reqs[r].stage == stage)
  }

  /** The other tasks have run until request `r` can go on after its await. */
  predicate Resumed<K(==), V(==)>(staleness: nat, s: State<K, V>, r: ReqId, acts: seq<Action<K, V>>)
    requires r < |s.reqs|
  {
    Legal(staleness, s, acts) && GoesOn(s, After(staleness, s, acts), r)
  }

  /** The other tasks, whatever they do, let every request go on in the end, and none is dropped. */
  ghost predicate Resumes<K(!new), V(!new)>(staleness: nat, others: (State<K, V>, ReqId) -> seq<Action<K, V>>) {
    forall s, r: nat | Inv(staleness, s) && r < |s.reqs| :: Resumed(staleness, s, r, others(s, r))
  }

  lemma {:induction false} WaiterStep<K, V>(staleness: nat, s: State<K, V>, a: Action<K, V>, r: ReqId)
    requires Enabled(s, a) && OwnStep(a) && r < |s.reqs| && s.reqs[r].stage.Waiting?
    ensures r < |Next(staleness, s, a).reqs|
    ensures Next(staleness, s, a).reqs[r].stage.Waiting? || Next(staleness, s, a).reqs[r].stage.Locked?
  {
  }

  lemma {:induction false} MutexComes<K, V>(
    staleness: nat, s: State<K, V>, r: ReqId, v: V)
    returns (acts: seq<Action<K, V>>)
    requires Inv(staleness, s) && r < |s.reqs| && s.reqs[r].stage.Waiting?
    ensures Resumed(staleness, s, r, acts)
    decreases Work(s)
  {
    hide Inv, Next, Enabled, Work;
    var a := NoDeadlock(staleness, s, v);
    var s' := Next(staleness, s, a);
    assert !Answered(s.reqs[r].stage);
    StepKeepsInv(staleness, s, a);
    StepUsesWork(staleness, s, a);
    WaiterStep(staleness, s, a, r);
    if s'.reqs[r].stage.Locked? {
      acts := [a];
      OneStep(staleness, s, a);
    } else {
      var rest := MutexComes(staleness, s', r, v);
      acts := [a] + rest;
      assert acts[1..] == rest;
    }
  }

  /** From every state the invariant allows, the other tasks can let a request go on. */
  lemma {:induction false} CanResume<K, V>(
    staleness: nat, s: State<K, V>, r: ReqId, v: V)
    returns (acts: seq<Action<K, V>>)
    requires Inv(staleness, s) && r < |s.reqs|
    ensures Resumed(staleness, s, r, acts)
  {
    match s.reqs[r].stage {
      case Waiting => acts := MutexComes(staleness, s, r, v);
      case Reading(g) =>
        assert ReqOk(s, r);
        assert GuardOk(s, g);
        if s.guards[g].locked {
          acts := [Complete(s.guards[g].owner, v, true)];
          OneStep(staleness, s, acts[0]);
        } else {
          acts := [];
        }
      case _ => acts := [];
    }
  }

  ghost predicate LeadsTo<K(!new), V(!new)>(staleness: nat, s: State<K, V>, s': State<K, V>) {
    exists acts :: Legal(staleness, s, acts) && After(staleness, s, acts) == s'
  }

  lemma {:induction false} LeadsOn<K(!new), V(!new)>(staleness: nat, s1: State<K, V>, s2: State<K, V>, s3: State<K, V>)
    requires LeadsTo(staleness, s1, s2) && LeadsTo(staleness, s2, s3)
    ensures LeadsTo(staleness, s1, s3)
  {
    var a :| Legal(staleness, s1, a) && After(staleness, s1, a) == s2;
    var b :| Legal(staleness, s2, b) && After(staleness, s2, b) == s3;
    LegalConcat(staleness, s1, a, b);
  }

  lemma {:induction false} StepLeads<K(!new), V(!new)>(staleness: nat, s: State<K, V>, a: Action<K, V>)
    requires Inv(staleness, s) && Enabled(s, a)
    ensures Inv(staleness, Next(staleness, s, a)) && LeadsTo(staleness, s, Next(staleness, s, a))
  {
    hide Inv;
    StepKeepsInv(staleness, s, a);
    OneStep(staleness, s, a);
  }

  /** The request's value came out of the cache: another request's cacheable fetch under the same key. */
  ghost predicate Shared<K, V>(s: State<K, V>, r: ReqId, v: V) {
    && r < |s.reqs| && s.reqs[r].stage.Hit? && s.reqs[r].stage.value == v
    && exists f: nat ::
      && f < |s.reqs| && f != r && s.reqs[f].key == s.reqs[r].key
      && s.reqs[f].stage.Fetched? && s.reqs[f].stage.cacheable && s.reqs[f].stage.value == v
  }

  /** The request has just fetched `v` itself: its guard holds it if it may be cached, and its removal is spawned. */
  predicate JustFetched<K(==), V(==)>(s: State<K, V>, r: ReqId, v: V, cacheIt: bool) {
    && r < |s.reqs| && s.timers != [] && s.reqs[r].stage.Fetched?
    && (var g := s.reqs[r].stage.guard;
        && s.reqs[r].stage == Fetched(g, v, cacheIt, s.now, |s.timers| - 1)
        && g < |s.guards| && s.guards[g].owner == r && !s.guards[g].locked
        && s.guards[g].content == if cacheIt then Some(v) else None)
    && s.timers[|s.timers| - 1] == Timer(s.reqs[r].key, r, Spawned)
  }

  lemma {:induction false} KeyKept<K, V>(staleness: nat, s: State<K, V>, acts: seq<Action<K, V>>, r: ReqId)
    requires Legal(staleness, s, acts) && r < |s.reqs|
    ensures r < |After(staleness, s, acts).reqs| && After(staleness, s, acts).reqs[r].key == s.reqs[r].key
    decreases |acts|
  {
    if acts != [] {
      HistoryKept(staleness, s, acts[0]);
      KeyKept(staleness, Next(staleness, s, acts[0]), acts[1..], r);
    }
  }

  /** With the mutex, the request can look its key up; it then reads the linked guard or fetches. */
  lemma {:induction false} CanConsult<K, V>(staleness: nat, s: State<K, V>, r: ReqId)
    requires Inv(staleness, s) && r < |s.reqs| && s.reqs[r].stage.Locked?
    ensures s.holder == Some(Req(r)) && Enabled(s, LookUp(r))
    ensures
      var s' := Next(staleness, s, LookUp(r));
      && |s'.reqs| == |s.reqs| && s'.reqs[r].key == s.reqs[r].key
      && (s'.reqs[r].stage.Reading? || (s'.reqs[r].stage.Fetching? && LinkedValue(s, s.reqs[r].key).None?))
  {
    assert ReqOk(s, r);
  }

  /** With the guard unlocked, the request can read it; it then has the linked value or fetches. */
  lemma {:induction false} CanRead<K, V>(staleness: nat, s: State<K, V>, r: ReqId)
    requires Inv(staleness, s) && r < |s.reqs| && s.reqs[r].stage.Reading?
    requires s.reqs[r].stage.guard < |s.guards| && !s.guards[s.reqs[r].stage.guard].locked
    ensures s.holder == Some(Req(r)) && Enabled(s, ReadEntry(r))
    ensures LinkedValue(s, s.reqs[r].key) == s.guards[s.reqs[r].stage.guard].content
    ensures
      var s' := Next(staleness, s, ReadEntry(r));
      && |s'.reqs| == |s.reqs| && s'.reqs[r].key == s.reqs[r].key
      && (match LinkedValue(s, s.reqs[r].key)
          case Some(v) => s'.reqs[r].stage.Hit? && s'.reqs[r].stage.value == v
          case None => s'.reqs[r].stage.Fetching?)
  {
    assert ReqOk(s, r);
  }

  lemma {:induction false} CanFinish<K, V>(staleness: nat, s: State<K, V>, r: ReqId, v: V, cacheIt: bool)
    requires Inv(staleness, s) && r < |s.reqs| && s.reqs[r].stage.Fetching?
    ensures Enabled(s, Complete(r, v, cacheIt))
    ensures
      var s' := Next(staleness, s, Complete(r, v, cacheIt));
      |s'.reqs| == |s.reqs| && s'.reqs[r].key == s.reqs[r].key && JustFetched(s', r, v, cacheIt)
  {
    assert ReqOk(s, r);
    assert GuardOk(s, s.reqs[r].stage.guard);
  }

  lemma {:induction false} HitIsShared<K, V>(staleness: nat, s: State<K, V>, r: ReqId)
    requires Inv(staleness, s) && r < |s.reqs| && s.reqs[r].stage.Hit?
    ensures Shared(s, r, s.reqs[r].stage.value)
  {
    hide Inv;
    HitOwner(staleness, s, r);
  }

  class Cacher<K(==,!new), V(==,!new)> {
    const staleness: nat
    var now: nat
    var tickets: nat
    var reqs: seq<Request<K, V>>
    var guards: seq<Guard<V>>
    var timers: seq<Timer<K>>
    var variants: map<K, GuardId>
    var queue: seq<Waiter>
    var holder: Option<Waiter>

    function Model(): State<K, V>
      reads this
    {
      State(now, tickets, reqs, guards, timers, variants, queue, holder)
    }

    constructor (staleness: nat)
      ensures Model() == Init() && this.staleness == staleness
    {
      this.staleness := staleness;
      now, tickets := 0, 0;
      reqs, guards, timers, variants, queue, holder := [], [], [], map[], [], None;
    }

    /** The request asks for the global mutex. */
    method Enter(key: K) returns (r: ReqId)
      modifies this
      ensures r == |old(reqs)|
      ensures Model() == Next(staleness, old(Model()), Arrive(key))
    {
      r := |reqs|;
      reqs := reqs + [Request(key, tickets, now, Waiting)];
      queue := queue + [Req(r)];
      tickets := tickets + 1;
    }

    /** The mutex, being free, goes to whoever has waited longest. */
    method PassMutex()
      requires Enabled(Model(), Grant)
      modifies this
      ensures Model() == Next(staleness, old(Model()), Grant)
    {
      var w := queue[0];
      queue := queue[1..];
      holder := Some(w);
      match w {
        case Req(r) => reqs := reqs[r := reqs[r].(stage := Locked)];
        case Tim(t) =>
          var stage := timers[t].stage;
          timers := timers[t := timers[t].(stage := Removing(stage.ticket, stage.at))];
      }
    }

    /** A new entry guard, locked for writing, goes into the map; the mutex is released. */
    method InsertGuard(r: ReqId) returns (g: GuardId)
      requires r < |reqs|
      modifies this
      ensures g == |old(guards)|
      ensures Model() == Install(old(Model()), r)
    {
      g := |guards|;
      guards := guards + [Guard(r, now, false, None)];
      guards := guards[g := guards[g].(locked := true)];
      variants := variants[reqs[r].key := g];
      holder := None;
      reqs := reqs[r := reqs[r].(stage := Fetching(g))];
    }

    /** With the mutex: find the entry and ask for its read lock, or install a guard. */
    method Consult(r: ReqId)
      requires Enabled(Model(), Action<K, V>.LookUp(r))
      modifies this
      ensures Model() == Next(staleness, old(Model()), LookUp(r))
    {
      var key := reqs[r].key;
      if key in variants {
        reqs := reqs[r := reqs[r].(stage := Reading(variants[key]))];
      } else {
        var _ := InsertGuard(r);
      }
    }

    /** With the read lock: return a cached value, or install a new guard over an empty one. */
    method ReadGuard(r: ReqId) returns (cached: Option<V>)
      requires Enabled(Model(), Action<K, V>.ReadEntry(r))
      modifies this
      ensures Model() == Next(staleness, old(Model()), ReadEntry(r))
      ensures cached == old(guards[reqs[r].stage.guard].content)
    {
      var g := reqs[r].stage.guard;
      cached := guards[g].content;
      match cached {
        case Some(v) =>
          holder := None;
          reqs := reqs[r := reqs[r].(stage := Hit(g, v))];
        case None =>
          var _ := InsertGuard(r);
      }
    }

    /** The future has resolved: fill the guard if allowed, spawn the removal, unlock, return. */
    method FinishFetch(r: ReqId, item: V, cacheIt: bool)
      requires Enabled(Model(), Complete(r, item, cacheIt))
      modifies this
      ensures Model() == Next(staleness, old(Model()), Complete(r, item, cacheIt))
    {
      var g := reqs[r].stage.guard;
      if cacheIt {
        guards := guards[g := guards[g].(content := Some(item))];
      }
      var t := |timers|;
      timers := timers + [Timer(reqs[r].key, r, Spawned)];
      guards := guards[g := guards[g].(locked := false)];
      reqs := reqs[r := reqs[r].(stage := Fetched(g, item, cacheIt, now, t))];
    }

    /** The `i`-th waiter, a request, is dropped from the queue. */
    method DropWaiter(i: nat)
      requires Enabled(Model(), Action<K, V>.Abandon(i))
      modifies this
      ensures Model() == Next(staleness, old(Model()), Abandon(i))
    {
      var r := queue[i].r;
      queue := queue[..i] + queue[i + 1..];
      reqs := reqs[r := reqs[r].(stage := Cancelled)];
    }

    /**
     Dropping a request past the queue releases whatever it owns.  A dropped fetch leaves its
     guard as it is, linked and empty, and no timer that would ever remove it.
     */
    method DropRequest(r: ReqId)
      requires Enabled(Model(), Action<K, V>.Cancel(r))
      modifies this
      ensures Model() == Next(staleness, old(Model()), Cancel(r))
      ensures variants == old(variants) && timers == old(timers) && |guards| == |old(guards)|
      ensures forall g: nat | g < |guards| ::
        && guards[g].content == old(guards)[g].content
        && guards[g].locked == (old(guards)[g].locked && old(reqs)[r].stage != Fetching(g))
      ensures holder == if old(reqs)[r].stage.Fetching? then old(holder) else None
    {
      if reqs[r].stage.Fetching? {
        var g := reqs[r].stage.guard;
        guards := guards[g := guards[g].(locked := false)];
      } else {
        holder := None;
      }
      reqs := reqs[r := reqs[r].(stage := Cancelled)];
    }

    method FallAsleep(t: TimerId)
      requires Enabled(Model(), Action<K, V>.StartSleep(t))
      modifies this
      ensures Model() == Next(staleness, old(Model()), StartSleep(t))
    {
      timers := timers[t := timers[t].(stage := Sleeping(now + staleness))];
    }

    method WakeUp(t: TimerId)
      requires Enabled(Model(), Action<K, V>.LineUp(t))
      modifies this
      ensures Model() == Next(staleness, old(Model()), LineUp(t))
    {
      timers := timers[t := timers[t].(stage := Lining(tickets, now))];
      queue := queue + [Tim(t)];
      tickets := tickets + 1;
    }

    /** The removal: by key, whatever guard is there by now. */
    method RemoveByKey(t: TimerId)
      requires Enabled(Model(), Action<K, V>.Remove(t))
      modifies this
      ensures Model() == Next(staleness, old(Model()), Remove(t))
      ensures timers[t].key !in variants && guards == old(guards) && reqs == old(reqs)
      ensures forall k | k != timers[t].key :: k in variants <==> k in old(variants)
      ensures forall k | k in variants :: k in old(variants) && variants[k] == old(variants)[k]
    {
      variants := variants - {timers[t].key};
      holder := None;
      var stage := timers[t].stage;
      timers := timers[t := timers[t].(stage := Gone(stage.ticket, stage.at))];
    }

    method PassTime(d: nat)
      modifies this
      ensures Model() == Next(staleness, old(Model()), Tick(d))
    {
      now := now + d;
    }

    method Perform(a: Action<K, V>)
      requires Enabled(Model(), a)
      modifies this
      ensures Model() == Next(staleness, old(Model()), a)
    {
      match a {
        case Arrive(key) => var _ := Enter(key);
        case Grant => PassMutex();
        case LookUp(r) => Consult(r);
        case ReadEntry(r) => var _ := ReadGuard(r);
        case Complete(r, item, cacheIt) => FinishFetch(r, item, cacheIt);
        case Abandon(i) => DropWaiter(i);
        case Cancel(r) => DropRequest(r);
        case StartSleep(t) => FallAsleep(t);
        case LineUp(t) => WakeUp(t);
        case Remove(t) => RemoveByKey(t);
        case Tick(d) => PassTime(d);
      }
    }

    /** Any schedule of the tasks' stretches is a run of the protocol, so the object keeps its invariant. */
    method Drive(acts: seq<Action<K, V>>)
      requires Inv(staleness, Model()) && Legal(staleness, Model(), acts)
      modifies this
      ensures Model() == After(staleness, old(Model()), acts) && Inv(staleness, Model())
    {
      hide Inv, Enabled, Next;
      for i := 0 to |acts|
        invariant Inv(staleness, Model()) && Legal(staleness, Model(), acts[i..])
        invariant After(staleness, Model(), acts[i..]) == After(staleness, old(Model()), acts)
      {
        StepKeepsInv(staleness, Model(), acts[i]);
        assert acts[i..][1..] == acts[i + 1..];
        Perform(acts[i]);
      }
      assert acts[|acts|..] == [];
    }

    /** Other tasks run while request `r` awaits something. */
    method Await(r: ReqId, others: (State<K, V>, ReqId) -> seq<Action<K, V>>)
      requires Inv(staleness, Model()) && Resumes(staleness, others) && r < |reqs|
      modifies this
      ensures Inv(staleness, Model()) && LeadsTo(staleness, old(Model()), Model())
      ensures GoesOn(old(Model()), Model(), r) && reqs[r].key == old(reqs)[r].key
    {
      hide Inv;
      var acts := others(Model(), r);
      assert Resumed(staleness, Model(), r, acts);
      KeyKept(staleness, Model(), acts, r);
      Drive(acts);
    }

    /** The global mutex is awaited. */
    method TakeMutex(key: K, others: (State<K, V>, ReqId) -> seq<Action<K, V>>) returns (r: ReqId)
      requires Inv(staleness, Model()) && Resumes(staleness, others)
      modifies this
      ensures Inv(staleness, Model()) && LeadsTo(staleness, old(Model()), Model())
      ensures r == |old(reqs)| < |reqs| && reqs[r].key == key && reqs[r].stage.Locked?
    {
      hide Inv, Resumes, LeadsTo;
      StepLeads(staleness, Model(), Arrive(key));
      r := Enter(key);
      ghost var queued := Model();
      Await(r, others);
      LeadsOn(staleness, old(Model()), queued, Model());
    }

    /** With the mutex, the linked guard's read lock is awaited, and its value taken, if there is one. */
    method ReadLinked(r: ReqId, others: (State<K, V>, ReqId) -> seq<Action<K, V>>)
      returns (found: Option<V>, ghost seen: State<K, V>)
      requires Inv(staleness, Model()) && Resumes(staleness, others) && r < |reqs| && reqs[r].stage.Reading?
      modifies this
      ensures Inv(staleness, Model())
      ensures LeadsTo(staleness, old(Model()), seen) && LeadsTo(staleness, seen, Model())
      ensures seen.holder == Some(Req(r)) && found == LinkedValue(seen, old(reqs)[r].key)
      ensures r < |reqs| && reqs[r].key == old(reqs)[r].key
      ensures
        match found
        case Some(v) => Shared(Model(), r, v)
        case None => reqs[r].stage.Fetching?
    {
      hide Inv, Resumes, LeadsTo, Shared, Next, Enabled, LinkedValue;
      Await(r, others);
      seen := Model();
      CanRead(staleness, seen, r);
      StepLeads(staleness, seen, ReadEntry(r));
      found := ReadGuard(r);
      if found.Some? {
        HitIsShared(staleness, Model(), r);
      }
    }

    /** The future is awaited, with neither lock nor mutex in the others' way but the guard's own. */
    method Fetch(r: ReqId, item: V, cacheIt: bool, others: (State<K, V>, ReqId) -> seq<Action<K, V>>)
      requires Inv(staleness, Model()) && Resumes(staleness, others) && r < |reqs| && reqs[r].stage.Fetching?
      modifies this
      ensures Inv(staleness, Model()) && LeadsTo(staleness, old(Model()), Model())
      ensures r < |reqs| && reqs[r].key == old(reqs)[r].key && JustFetched(Model(), r, item, cacheIt)
    {
      hide Inv, Resumes, LeadsTo, Next, Enabled, JustFetched;
      Await(r, others);
      ghost var resolved := Model();
      CanFinish(staleness, resolved, r, item, cacheIt);
      StepLeads(staleness, resolved, Complete(r, item, cacheIt));
      FinishFetch(r, item, cacheIt);
      LeadsOn(staleness, old(Model()), resolved, Model());
    }

    /**
     The whole call, with other tasks running at each of its awaits.  It takes effect at one
     instant `seen` of the run, when it owns the mutex and, if the key is linked, reads the
     guard: the value linked then is the result, flagged cached; with no value there, the
     result is that of the future.  A cached result is what another request fetched under the
     same key; a fetched one is kept exactly if it may be cached, its removal being scheduled.
     */
    method GetOrInsertWith(key: K, item: V, cacheIt: bool, others: (State<K, V>, ReqId) -> seq<Action<K, V>>)
      returns (result: V, cached: bool, ghost seen: State<K, V>)
      requires Inv(staleness, Model()) && Resumes(staleness, others)
      modifies this
      ensures Inv(staleness, Model())
      ensures LeadsTo(staleness, old(Model()), seen) && LeadsTo(staleness, seen, Model())
      ensures seen.holder == Some(Req(|old(reqs)|))
      ensures
        match LinkedValue(seen, key)
        case Some(v) => cached && result == v
        case None => !cached && result == item
      ensures |old(reqs)| < |reqs| && reqs[|old(reqs)|].key == key
      ensures cached ==> Shared(Model(), |old(reqs)|, result)
      ensures !cached ==> JustFetched(Model(), |old(reqs)|, item, cacheIt)
    {
      hide Inv, Resumes, LeadsTo, Next, Enabled, LinkedValue, Shared, JustFetched;
      ghost var start := Model();
      var r := TakeMutex(key, others);
      seen := Model();
      CanConsult(staleness, seen, r);
      StepLeads(staleness, seen, LookUp(r));
      Consult(r);
      if reqs[r].stage.Reading? {
        LeadsOn(staleness, start, seen, Model());
        ghost var looking := Model();
        var found;
        found, seen := ReadLinked(r, others);
        LeadsOn(staleness, start, looking, seen);
        if found.Some? {
          return found.value, true, seen;
        }
      }
      ghost var fetching := Model();
      Fetch(r, item, cacheIt, others);
      LeadsOn(staleness, seen, fetching, Model());
      return item, false, seen;
    }

    /**
     The whole call, when nobody else is at the mutex and nobody fetches the key: the linked
     value if there is one, otherwise the future's value, kept exactly if it may be cached.
     */
    method GetOrInsertAlone(key: K, item: V, cacheIt: bool) returns (result: V, cached: bool)
      requires holder.None? && queue == []
      requires key in variants ==> variants[key] < |guards| && !guards[variants[key]].locked
      modifies this
      ensures Model() == AfterCall(old(Model()), key, item, cacheIt)
      ensures
        match LinkedValue(old(Model()), key)
        case Some(v) => cached && result == v
        case None => !cached && result == item
    {
      var r := Enter(key);
      PassMutex();
      Consult(r);
      if reqs[r].stage.Reading? {
        var found := ReadGuard(r);
        if found.Some? {
          return found.value, true;
        }
      }
      FinishFetch(r, item, cacheIt);
      return item, false;
    }
  }

  /** The value the map links to a key. */
  function LinkedValue<K(==), V>(s: State<K, V>, key: K): Option<V> {
    if key in s.variants && s.variants[key] < |s.guards| then s.guards[s.variants[key]].content else None
  }

  function AfterCall<K(==), V(==)>(s: State<K, V>, key: K, item: V, cacheIt: bool): State<K, V> {
    var owning := s.(reqs := s.reqs + [Request(key, s.tickets, s.now, Locked)], tickets := s.tickets + 1);
    match LinkedValue(s, key)
    case Some(v) => SetReq(owning, |s.reqs|, Hit(s.variants[key], v))
    case None =>
      SetReq(owning, |s.reqs|, Fetched(|s.guards|, item, cacheIt, s.now, |s.timers|)).(
        guards := s.guards + [Guard(|s.reqs|, s.now, false, if cacheIt then Some(item) else None)],
        variants := s.variants[key := |s.guards|],
        timers := s.timers + [Timer(key, |s.reqs|, Spawned)])
  }

  /** An undisturbed call is a run of the protocol, so it keeps the protocol's invariant. */
  lemma {:induction false} CallAloneIsARun<K(!new), V(!new)>(
    staleness: nat, s: State<K, V>, key: K, item: V, cacheIt: bool)
    requires Reachable(staleness, s) && s.holder.None? && s.queue == []
    requires key in s.variants ==> s.variants[key] < |s.guards| && !s.guards[s.variants[key]].locked
    ensures Reachable(staleness, AfterCall(s, key, item, cacheIt))
  {
    hide Reachable;
    var r := |s.reqs|;
    var s1 := Take(staleness, s, Arrive(key));
    var s2 := Take(staleness, s1, Grant);
    var s3 := Take(staleness, s2, LookUp(r));
    if s3.reqs[r].stage.Reading? {
      s3 := Take(staleness, s3, ReadEntry(r));
    }
    if LinkedValue(s, key).None? {
      s3 := Take(staleness, s3, Complete(r, item, cacheIt));
    }
    assert s3 == AfterCall(s, key, item, cacheIt);
  }
}
