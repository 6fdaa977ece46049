/**
 The deadline cache as a concurrent protocol.

 One cacher owns a hash map behind a global FIFO mutex; every map entry is an entry guard,
 a read/write lock around an optional value.  A request runs from one await to the next, and
 each stretch between two awaits is one action below.  A request may be dropped at any await.
 A detached timer, spawned when a fetch completes, sleeps and then removes its map entry
 *by key*.

 Some fields record history only: `owner` and `since` of a guard, `ticket` and `arrived` of
 a request, `ticket` and `at` of a timer, and the arguments of the final stages.  No action
 is enabled or disabled by them.
 */
module DeadlineCacher {
  import opened Wrappers

  type ReqId = nat
  type GuardId = nat
  type TimerId = nat

  /** An entry guard.  Only the request that made it ever locks it for writing. */
  datatype Guard<+V> = Guard(owner: ReqId, since: nat, locked: bool, content: Option<V>)

  datatype Stage<+V> =
    | Waiting                                  // queued on the global mutex
    | Locked                                   // owns the mutex
    | Reading(guard: GuardId)                  // owns the mutex, awaits the guard's read lock
    | Fetching(guard: GuardId)                 // released the mutex, write-locks the guard
    | Hit(guard: GuardId, value: V)            // returned (value, true)
    | Fetched(guard: GuardId, value: V, cacheable: bool, at: nat, timer: TimerId)  // (value, false)
    | Cancelled

  datatype Request<+K, +V> = Request(key: K, ticket: nat, arrived: nat, stage: Stage<V>)

  datatype TimerStage =
    | Spawned                                  // not polled yet: the deadline is not set
    | Sleeping(due: nat)
    | Lining(ticket: nat, at: nat)             // queued on the global mutex
    | Removing(ticket: nat, at: nat)           // owns the mutex
    | Gone(ticket: nat, at: nat)

  datatype Timer<+K> = Timer(key: K, fetch: ReqId, stage: TimerStage)

  datatype Waiter = Req(r: ReqId) | Tim(t: TimerId)

  datatype State<K, V> = State(
    now: nat,
    tickets: nat,
    reqs: seq<Request<K, V>>,
    guards: seq<Guard<V>>,
    timers: seq<Timer<K>>,
    variants: map<K, GuardId>,
    queue: seq<Waiter>,
    holder: Option<Waiter>)

  datatype Action<+K, +V> =
    | Arrive(key: K)                           // a request reaches the mutex
    | Grant                                    // the free mutex goes to the head of its queue
    | LookUp(r: ReqId)                         // the owner consults the map
    | ReadEntry(r: ReqId)                      // the owner gets the guard's read lock
    | Complete(r: ReqId, value: V, cacheable: bool)
    | Abandon(i: nat)                          // the i-th waiter, a request, is dropped
    | Cancel(r: ReqId)                         // a request past the queue is dropped
    | StartSleep(t: TimerId)
    | LineUp(t: TimerId)                       // the sleep is over: queue on the mutex
    | Remove(t: TimerId)
    | Tick(d: nat)

  function Init<K, V>(): State<K, V> {
    State(0, 0, [], [], [], map[], [], None)
  }

  function SetReq<K, V>(s: State<K, V>, r: ReqId, stage: Stage<V>): State<K, V>
    requires r < |s.reqs|
  {
    s.(reqs := s.reqs[r := s.reqs[r].(stage := stage)])
  }

  function SetTimer<K, V>(s: State<K, V>, t: TimerId, stage: TimerStage): State<K, V>
    requires t < |s.timers|
  {
    s.(timers := s.timers[t := s.timers[t].(stage := stage)])
  }

  predicate Enabled<K(==), V>(s: State<K, V>, a: Action<K, V>) {
    match a
    case Arrive(_) => true
    case Grant =>
      s.holder.None? && |s.queue| > 0 && (
        match s.queue[0]
        case Req(r) => r < |s.reqs| && s.reqs[r].stage.Waiting?
        case Tim(t) => t < |s.timers| && s.timers[t].stage.Lining?)
    case LookUp(r) => s.holder == Some(Req(r)) && r < |s.reqs| && s.reqs[r].stage.Locked?
    case ReadEntry(r) =>
      && s.holder == Some(Req(r)) && r < |s.reqs| && s.reqs[r].stage.Reading?
      && s.reqs[r].stage.guard < |s.guards| && !s.guards[s.reqs[r].stage.guard].locked
    case Complete(r, _, _) =>
      r < |s.reqs| && s.reqs[r].stage.Fetching? && s.reqs[r].stage.guard < |s.guards|
    case Abandon(i) =>
      i < |s.queue| && s.queue[i].Req? && s.queue[i].r < |s.reqs| && s.reqs[s.queue[i].r].stage.Waiting?
    case Cancel(r) =>
      r < |s.reqs| && (
        || s.reqs[r].stage.Locked?
        || s.reqs[r].stage.Reading?
        || (s.reqs[r].stage.Fetching? && s.reqs[r].stage.guard < |s.guards|))
    case StartSleep(t) => t < |s.timers| && s.timers[t].stage.Spawned?
    case LineUp(t) => t < |s.timers| && s.timers[t].stage.Sleeping? && s.timers[t].stage.due <= s.now
    case Remove(t) => s.holder == Some(Tim(t)) && t < |s.timers| && s.timers[t].stage.Removing?
    case Tick(_) => true
  }

  /** A new, write-locked, empty guard goes into the map and the mutex is released. */
  function Install<K(==), V>(s: State<K, V>, r: ReqId): State<K, V>
    requires r < |s.reqs|
  {
    var g := |s.guards|;
    SetReq(s, r, Fetching(g)).(
      guards := s.guards + [Guard(r, s.now, true, None)],
      variants := s.variants[s.reqs[r].key := g],
      holder := None)
  }

  function Next<K(==), V>(staleness: nat, s: State<K, V>, a: Action<K, V>): State<K, V>
    requires Enabled(s, a)
  {
    match a
    case Arrive(key) =>
      s.(reqs := s.reqs + [Request(key, s.tickets, s.now, Waiting)],
         queue := s.queue + [Req(|s.reqs|)],
         tickets := s.tickets + 1)
    case Grant =>
      var w := s.queue[0];
      var s' := match w
        case Req(r) => SetReq(s, r, Locked)
        case Tim(t) => SetTimer(s, t, Removing(s.timers[t].stage.ticket, s.timers[t].stage.at));
      s'.(queue := s.queue[1..], holder := Some(w))
    case LookUp(r) =>
      var key := s.reqs[r].key;
      if key in s.variants then SetReq(s, r, Reading(s.variants[key])) else Install(s, r)
    case ReadEntry(r) =>
      var g := s.reqs[r].stage.guard;
      (match s.guards[g].content
       case Some(v) => SetReq(s, r, Hit(g, v)).(holder := None)
       case None => Install(s, r))
    case Complete(r, v, cacheable) =>
      var g := s.reqs[r].stage.guard;
      SetReq(s, r, Fetched(g, v, cacheable, s.now, |s.timers|)).(
        guards := s.guards[g := s.guards[g].(
                    locked := false,
                    content := if cacheable then Some(v) else s.guards[g].content)],
        timers := s.timers + [Timer(s.reqs[r].key, r, Spawned)])
    case Abandon(i) =>
      SetReq(s, s.queue[i].r, Cancelled).(queue := s.queue[..i] + s.queue[i + 1..])
    case Cancel(r) =>
      var s' := SetReq(s, r, Cancelled);
      if s.reqs[r].stage.Fetching? then
        var g := s.reqs[r].stage.guard;
        s'.(guards := s.guards[g := s.guards[g].(locked := false)])
      else
        s'.(holder := None)
    case StartSleep(t) => SetTimer(s, t, Sleeping(s.now + staleness))
    case LineUp(t) =>
      SetTimer(s, t, Lining(s.tickets, s.now)).(
        queue := s.queue + [Tim(t)],
        tickets := s.tickets + 1)
    case Remove(t) =>
      SetTimer(s, t, Gone(s.timers[t].stage.ticket, s.timers[t].stage.at)).(
        variants := s.variants - {s.timers[t].key},
        holder := None)
    case Tick(d) => s.(now := s.now + d)
  }

  /** Every action of the run is enabled where it is taken. */
  predicate Legal<K(==), V>(staleness: nat, s: State<K, V>, acts: seq<Action<K, V>>)
    decreases |acts|
  {
    acts == [] || (Enabled(s, acts[0]) && Legal(staleness, Next(staleness, s, acts[0]), acts[1..]))
  }

  function After<K(==), V>(staleness: nat, s: State<K, V>, acts: seq<Action<K, V>>): State<K, V>
    requires Legal(staleness, s, acts)
    decreases |acts|
  {
    if acts == [] then s else After(staleness, Next(staleness, s, acts[0]), acts[1..])
  }

  ghost predicate Reachable<K(!new), V(!new)>(staleness: nat, s: State<K, V>) {
    exists acts :: Legal(staleness, Init<K, V>(), acts) && After(staleness, Init<K, V>(), acts) == s
  }

  lemma {:induction false} LegalConcat<K, V>(staleness: nat, s: State<K, V>, a: seq<Action<K, V>>, b: seq<Action<K, V>>)
    requires Legal(staleness, s, a)
    requires Legal(staleness, After(staleness, s, a), b)
    ensures Legal(staleness, s, a + b)
    ensures After(staleness, s, a + b) == After(staleness, After(staleness, s, a), b)
    decreases |a|
  {
    if a == [] {
      assert a + b == b;
    } else {
      LegalConcat(staleness, Next(staleness, s, a[0]), a[1..], b);
      assert (a + b)[1..] == a[1..] + b;
    }
  }
}
