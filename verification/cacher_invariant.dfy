/** What every step of the deadline cache keeps. */
module CacherInvariant {
  import opened Wrappers
  import opened DeadlineCacher

  predicate Queued(stage: TimerStage) {
    stage.Lining? || stage.Removing? || stage.Gone?
  }

  /** A request that has left the mutex queue without being dropped there. */
  predicate Passed<V>(stage: Stage<V>) {
    !stage.Waiting? && !stage.Cancelled?
  }

  predicate Linked<K(==), V>(s: State<K, V>, key: K, g: GuardId) {
    key in s.variants && s.variants[key] == g
  }

  /** A guard's lock and content say exactly what became of the fetch of the request that made it. */
  predicate GuardOk<K, V(==)>(s: State<K, V>, g: GuardId)
    requires g < |s.guards|
  {
    && s.guards[g].owner < |s.reqs|
    && s.reqs[s.guards[g].owner].arrived <= s.guards[g].since <= s.now
    && (match s.reqs[s.guards[g].owner].stage
        case Fetching(h) => h == g && s.guards[g].locked && s.guards[g].content.None?
        case Fetched(h, v, cacheable, at, _) =>
          h == g && !s.guards[g].locked && s.guards[g].content == (if cacheable then Some(v) else None)
          && s.guards[g].since <= at
        case Cancelled => !s.guards[g].locked && s.guards[g].content.None?
        case _ => false)
  }

  predicate GuardsOk<K, V(==)>(s: State<K, V>) {
    forall g: nat | g < |s.guards| :: GuardOk(s, g)
  }

  predicate ReqOk<K(==), V(==)>(s: State<K, V>, r: ReqId)
    requires r < |s.reqs|
  {
    var q := s.reqs[r];
    && q.ticket < s.tickets
    && q.arrived <= s.now
    && (match q.stage
        case Waiting => Req(r) in s.queue
        case Locked => s.holder == Some(Req(r))
        case Reading(g) => s.holder == Some(Req(r)) && g < |s.guards| && Linked(s, q.key, g)
        case Fetching(g) => g < |s.guards| && s.guards[g].owner == r
        case Hit(g, v) =>
          && g < |s.guards| && s.guards[g].content == Some(v)
          && s.guards[g].owner < |s.reqs| && s.reqs[s.guards[g].owner].key == q.key
        case Fetched(g, _, _, at, t) =>
          && g < |s.guards| && s.guards[g].owner == r && at <= s.now
          && t < |s.timers| && s.timers[t].fetch == r
        case Cancelled => true)
  }

  predicate ReqsOk<K(==), V(==)>(s: State<K, V>) {
    forall r: nat | r < |s.reqs| :: ReqOk(s, r)
  }

  /** A timer belongs to one completed fetch, never runs early, and leaves its guard unlinked. */
  predicate TimerOk<K(==), V>(staleness: nat, s: State<K, V>, t: TimerId)
    requires t < |s.timers|
  {
    var f := s.timers[t].fetch;
    && f < |s.reqs|
    && s.reqs[f].stage.Fetched?
    && s.reqs[f].stage.timer == t
    && s.timers[t].key == s.reqs[f].key
    && (match s.timers[t].stage
        case Spawned => true
        case Sleeping(due) => due >= s.reqs[f].stage.at + staleness
        case Lining(ticket, at) =>
          Tim(t) in s.queue && ticket < s.tickets && s.reqs[f].stage.at + staleness <= at <= s.now
        case Removing(ticket, at) =>
          s.holder == Some(Tim(t)) && ticket < s.tickets && s.reqs[f].stage.at + staleness <= at <= s.now
        case Gone(ticket, at) =>
          && ticket < s.tickets && s.reqs[f].stage.at + staleness <= at <= s.now
          && !Linked(s, s.timers[t].key, s.reqs[f].stage.guard))
  }

  predicate TimersOk<K(==), V>(staleness: nat, s: State<K, V>) {
    forall t: nat | t < |s.timers| :: TimerOk(staleness, s, t)
  }

  /** A linked guard was made under its key, and is the newest one made under it. */
  predicate VariantsOk<K(==), V>(s: State<K, V>) {
    && (forall k | k in s.variants ::
          s.variants[k] < |s.guards| && s.guards[s.variants[k]].owner < |s.reqs|
          && s.reqs[s.guards[s.variants[k]].owner].key == k)
    && (forall g: nat | g < |s.guards| ::
          s.guards[g].owner < |s.reqs| &&
          (var k := s.reqs[s.guards[g].owner].key; k in s.variants ==> g <= s.variants[k]))
  }

  predicate InLine<K, V>(s: State<K, V>, w: Waiter) {
    match w
    case Req(r) => r < |s.reqs| && s.reqs[r].stage.Waiting?
    case Tim(t) => t < |s.timers| && s.timers[t].stage.Lining?
  }

  function TicketOf<K, V>(s: State<K, V>, w: Waiter): nat
    requires InLine(s, w)
  {
    match w
    case Req(r) => s.reqs[r].ticket
    case Tim(t) => s.timers[t].stage.ticket
  }

  predicate QueueOk<K, V>(s: State<K, V>) {
    && (forall i | 0 <= i < |s.queue| :: InLine(s, s.queue[i]))
    && (forall i, j | 0 <= i < j < |s.queue| :: TicketOf(s, s.queue[i]) < TicketOf(s, s.queue[j]))
  }

  predicate HolderOk<K, V>(s: State<K, V>) {
    match s.holder
    case None => true
    case Some(Req(r)) => r < |s.reqs| && (s.reqs[r].stage.Locked? || s.reqs[r].stage.Reading?)
    case Some(Tim(t)) => t < |s.timers| && s.timers[t].stage.Removing?
  }

  /** First in, first out: who queued behind a removal gets the mutex only after it. */
  predicate Fifo<K, V>(s: State<K, V>) {
    forall r: nat, t: nat | r < |s.reqs| && t < |s.timers| && Passed(s.reqs[r].stage)
      && Queued(s.timers[t].stage) && s.timers[t].stage.ticket < s.reqs[r].ticket
      :: s.timers[t].stage.Gone?
  }

  /** The guard a request has been led to. */
  function Led<V>(stage: Stage<V>): Option<GuardId> {
    match stage
    case Reading(g) => Some(g)
    case Hit(g, _) => Some(g)
    case _ => None
  }

  /** Nobody is led to a guard whose removal queued before them. */
  predicate LedBeforeRemoval<K, V>(s: State<K, V>) {
    forall r: nat, t: nat | r < |s.reqs| && t < |s.timers| && Led(s.reqs[r].stage).Some?
      && Led(s.reqs[r].stage).value < |s.guards|
      && s.guards[Led(s.reqs[r].stage).value].owner == s.timers[t].fetch
      && Queued(s.timers[t].stage)
      :: s.reqs[r].ticket <= s.timers[t].stage.ticket
  }

  /** Tickets are handed out in time order. */
  predicate TicketsTimed<K, V>(s: State<K, V>) {
    forall r: nat, t: nat | r < |s.reqs| && t < |s.timers| && Queued(s.timers[t].stage)
      && s.reqs[r].ticket <= s.timers[t].stage.ticket
      :: s.reqs[r].arrived <= s.timers[t].stage.at
  }

  predicate Inv<K(==), V(==)>(staleness: nat, s: State<K, V>) {
    && GuardsOk(s) && ReqsOk(s) && TimersOk(staleness, s) && VariantsOk(s)
    && QueueOk(s) && HolderOk(s) && Fifo(s) && LedBeforeRemoval(s) && TicketsTimed(s)
  }

  /** What the invariant says about the request, guard and timer an action works on. */
  predicate ActorOk<K(==), V(==)>(staleness: nat, s: State<K, V>, a: Action<K, V>)
    requires Enabled(s, a)
  {
    match a
    case LookUp(r) =>
      var k := s.reqs[r].key;
      ReqOk(s, r) && (k in s.variants ==>
        s.variants[k] < |s.guards| && GuardOk(s, s.variants[k]) && s.reqs[s.guards[s.variants[k]].owner].key == k)
    case ReadEntry(r) =>
      ReqOk(s, r) && GuardOk(s, s.reqs[r].stage.guard)
      && s.reqs[s.guards[s.reqs[r].stage.guard].owner].key == s.reqs[r].key
    case Complete(r, _, _) => ReqOk(s, r) && GuardOk(s, s.reqs[r].stage.guard)
    case Cancel(r) => ReqOk(s, r) && (s.reqs[r].stage.Fetching? ==> GuardOk(s, s.reqs[r].stage.guard))
    case StartSleep(t) => TimerOk(staleness, s, t)
    case LineUp(t) => TimerOk(staleness, s, t)
    case Remove(t) => TimerOk(staleness, s, t)
    case _ => true
  }

  lemma {:induction false} InvGivesActorOk<K, V>(staleness: nat, s: State<K, V>, a: Action<K, V>)
    requires Inv(staleness, s) && Enabled(s, a)
    ensures ActorOk(staleness, s, a)
  {
    match a {
      case LookUp(r) =>
        assert ReqOk(s, r);
        if s.reqs[r].key in s.variants { assert GuardOk(s, s.variants[s.reqs[r].key]); }
      case ReadEntry(r) => assert ReqOk(s, r); assert GuardOk(s, s.reqs[r].stage.guard);
      case Complete(r, _, _) => assert ReqOk(s, r); assert GuardOk(s, s.reqs[r].stage.guard);
      case Cancel(r) =>
        assert ReqOk(s, r);
        if s.reqs[r].stage.Fetching? { assert GuardOk(s, s.reqs[r].stage.guard); }
      case StartSleep(t) => assert TimerOk(staleness, s, t);
      case LineUp(t) => assert TimerOk(staleness, s, t);
      case Remove(t) => assert TimerOk(staleness, s, t);
      case _ =>
    }
  }

  lemma {:induction false} GuardKeptByRequest<K, V>(staleness: nat, s: State<K, V>, a: Action<K, V>, g: GuardId)
    requires a.LookUp? || a.ReadEntry? || a.Complete? || a.Cancel?
    requires Enabled(s, a) && ActorOk(staleness, s, a)
    requires g < |s.guards| ==> GuardOk(s, g)
    requires g < |Next(staleness, s, a).guards|
    ensures GuardOk(Next(staleness, s, a), g)
  {
  }

  lemma {:induction false} GuardKept<K, V>(staleness: nat, s: State<K, V>, a: Action<K, V>, g: GuardId)
    requires Enabled(s, a) && ActorOk(staleness, s, a)
    requires g < |s.guards| ==> GuardOk(s, g)
    requires g < |Next(staleness, s, a).guards|
    ensures GuardOk(Next(staleness, s, a), g)
  {
    match a {
      case LookUp(_) => GuardKeptByRequest(staleness, s, a, g);
      case ReadEntry(_) => GuardKeptByRequest(staleness, s, a, g);
      case Complete(_, _, _) => GuardKeptByRequest(staleness, s, a, g);
      case Cancel(_) => GuardKeptByRequest(staleness, s, a, g);
      case _ =>
    }
  }

  lemma {:induction false} GuardsKept<K, V>(staleness: nat, s: State<K, V>, a: Action<K, V>)
    requires GuardsOk(s) && Enabled(s, a) && ActorOk(staleness, s, a)
    ensures GuardsOk(Next(staleness, s, a))
  {
    var s' := Next(staleness, s, a);
    forall g: nat | g < |s'.guards| ensures GuardOk(s', g) {
      GuardKept(staleness, s, a, g);
    }
  }

  /** Only the grant of the mutex or its own dropping takes a waiter out of the queue. */
  lemma {:induction false} WaiterStays<K, V>(staleness: nat, s: State<K, V>, a: Action<K, V>, w: Waiter)
    requires Enabled(s, a) && w in s.queue
    ensures w in Next(staleness, s, a).queue
      || (a.Grant? && w == s.queue[0])
      || (a.Abandon? && w == s.queue[a.i])
  {
    var i :| 0 <= i < |s.queue| && s.queue[i] == w;
    var s' := Next(staleness, s, a);
    match a {
      case Grant => if i > 0 { assert s'.queue[i - 1] == w; }
      case Abandon(j) =>
        if i < j { assert s'.queue[i] == w; } else if i > j { assert s'.queue[i - 1] == w; }
      case Arrive(_) => assert s'.queue[i] == w;
      case LineUp(_) => assert s'.queue[i] == w;
      case _ =>
    }
  }

  lemma {:induction false} WaitingKept<K, V>(staleness: nat, s: State<K, V>, a: Action<K, V>, r: ReqId)
    requires Enabled(s, a) && r < |s.reqs| && ReqOk(s, r) && s.reqs[r].stage.Waiting?
    ensures ReqOk(Next(staleness, s, a), r)
  {
    WaiterStays(staleness, s, a, Req(r));
  }

  lemma {:induction false} OwningKept<K, V>(staleness: nat, s: State<K, V>, a: Action<K, V>, r: ReqId)
    requires Enabled(s, a) && ActorOk(staleness, s, a)
    requires r < |s.reqs| && ReqOk(s, r) && (s.reqs[r].stage.Locked? || s.reqs[r].stage.Reading?)
    ensures ReqOk(Next(staleness, s, a), r)
  {
  }

  lemma {:induction false} FetchingKeptByEnd<K, V>(staleness: nat, s: State<K, V>, a: Action<K, V>, r: ReqId)
    requires (a.Complete? || a.Cancel?) && Enabled(s, a) && ActorOk(staleness, s, a)
    requires r < |s.reqs| && ReqOk(s, r) && (s.reqs[r].stage.Fetching? || s.reqs[r].stage.Fetched?)
    ensures ReqOk(Next(staleness, s, a), r)
  {
  }

  lemma {:induction false} FetchingKept<K, V>(staleness: nat, s: State<K, V>, a: Action<K, V>, r: ReqId)
    requires Enabled(s, a) && ActorOk(staleness, s, a)
    requires r < |s.reqs| && ReqOk(s, r) && (s.reqs[r].stage.Fetching? || s.reqs[r].stage.Fetched?)
    ensures ReqOk(Next(staleness, s, a), r)
  {
    match a {
      case Complete(_, _, _) => FetchingKeptByEnd(staleness, s, a, r);
      case Cancel(_) => FetchingKeptByEnd(staleness, s, a, r);
      case _ =>
    }
  }

  lemma {:induction false} ServedKept<K, V>(staleness: nat, s: State<K, V>, a: Action<K, V>, r: ReqId)
    requires Enabled(s, a) && ActorOk(staleness, s, a)
    requires r < |s.reqs| && ReqOk(s, r) && (s.reqs[r].stage.Hit? || s.reqs[r].stage.Cancelled?)
    requires s.reqs[r].stage.Hit? ==> GuardOk(s, s.reqs[r].stage.guard)
    ensures ReqOk(Next(staleness, s, a), r)
  {
  }

  lemma {:induction false} ReqKept<K, V>(staleness: nat, s: State<K, V>, a: Action<K, V>, r: ReqId)
    requires Enabled(s, a) && ActorOk(staleness, s, a)
    requires r < |s.reqs| && ReqOk(s, r)
    requires s.reqs[r].stage.Hit? ==> GuardOk(s, s.reqs[r].stage.guard)
    ensures ReqOk(Next(staleness, s, a), r)
  {
    match s.reqs[r].stage {
      case Waiting => WaitingKept(staleness, s, a, r);
      case Locked => OwningKept(staleness, s, a, r);
      case Reading(_) => OwningKept(staleness, s, a, r);
      case Fetching(_) => FetchingKept(staleness, s, a, r);
      case Fetched(_, _, _, _, _) => FetchingKept(staleness, s, a, r);
      case _ => ServedKept(staleness, s, a, r);
    }
  }

  lemma {:induction false} ReqsKept<K, V>(staleness: nat, s: State<K, V>, a: Action<K, V>)
    requires GuardsOk(s) && ReqsOk(s) && Enabled(s, a) && ActorOk(staleness, s, a)
    ensures ReqsOk(Next(staleness, s, a))
  {
    var s' := Next(staleness, s, a);
    forall r: nat | r < |s'.reqs| ensures ReqOk(s', r) {
      if r < |s.reqs| {
        assert ReqOk(s, r);
        if s.reqs[r].stage.Hit? { assert GuardOk(s, s.reqs[r].stage.guard); }
        ReqKept(staleness, s, a, r);
      } else {
        assert s'.queue[|s.queue|] == Req(r);
      }
    }
  }

  lemma {:induction false} TimerKeptByTimers<K, V>(staleness: nat, s: State<K, V>, a: Action<K, V>, t: TimerId)
    requires a.Grant? || a.StartSleep? || a.LineUp? || a.Remove?
    requires Enabled(s, a) && ActorOk(staleness, s, a)
    requires t < |s.timers| && TimerOk(staleness, s, t)
    requires ReqOk(s, s.timers[t].fetch)
    ensures TimerOk(staleness, Next(staleness, s, a), t)
  {
    if s.timers[t].stage.Lining? {
      WaiterStays(staleness, s, a, Tim(t));
    }
    if a == LineUp(t) {
      assert Next(staleness, s, a).queue[|s.queue|] == Tim(t);
    }
  }

  lemma {:induction false} TimerKeptByRequests<K, V>(staleness: nat, s: State<K, V>, a: Action<K, V>, t: TimerId)
    requires !a.Grant? && !a.StartSleep? && !a.LineUp? && !a.Remove?
    requires Enabled(s, a) && ActorOk(staleness, s, a)
    requires t < |s.timers| && TimerOk(staleness, s, t)
    requires ReqOk(s, s.timers[t].fetch)
    ensures TimerOk(staleness, Next(staleness, s, a), t)
  {
    if s.timers[t].stage.Lining? {
      WaiterStays(staleness, s, a, Tim(t));
    }
  }

  lemma {:induction false} TimerKept<K, V>(staleness: nat, s: State<K, V>, a: Action<K, V>, t: TimerId)
    requires Enabled(s, a) && ActorOk(staleness, s, a)
    requires t < |s.timers| && TimerOk(staleness, s, t)
    requires ReqOk(s, s.timers[t].fetch)
    ensures TimerOk(staleness, Next(staleness, s, a), t)
  {
    match a {
      case Grant => TimerKeptByTimers(staleness, s, a, t);
      case StartSleep(_) => TimerKeptByTimers(staleness, s, a, t);
      case LineUp(_) => TimerKeptByTimers(staleness, s, a, t);
      case Remove(_) => TimerKeptByTimers(staleness, s, a, t);
      case _ => TimerKeptByRequests(staleness, s, a, t);
    }
  }

  lemma {:induction false} TimersKept<K, V>(staleness: nat, s: State<K, V>, a: Action<K, V>)
    requires ReqsOk(s) && TimersOk(staleness, s) && Enabled(s, a) && ActorOk(staleness, s, a)
    ensures TimersOk(staleness, Next(staleness, s, a))
  {
    var s' := Next(staleness, s, a);
    forall t: nat | t < |s'.timers| ensures TimerOk(staleness, s', t) {
      if t < |s.timers| {
        assert TimerOk(staleness, s, t);
        assert ReqOk(s, s.timers[t].fetch);
        TimerKept(staleness, s, a, t);
      }
    }
  }

  /** Keys, owners and starting times are never rewritten. */
  lemma {:induction false} HistoryKept<K, V>(staleness: nat, s: State<K, V>, a: Action<K, V>)
    requires Enabled(s, a)
    ensures |s.reqs| <= |Next(staleness, s, a).reqs| && |s.guards| <= |Next(staleness, s, a).guards|
    ensures forall r: nat | r < |s.reqs| :: Next(staleness, s, a).reqs[r].key == s.reqs[r].key
    ensures forall g: nat | g < |s.guards| ::
      Next(staleness, s, a).guards[g].owner == s.guards[g].owner
        && Next(staleness, s, a).guards[g].since == s.guards[g].since
  {
  }

  /** Either the map is left alone, or one removal takes a key out, or one install puts a new guard in. */
  lemma {:induction false} VariantsChange<K, V>(staleness: nat, s: State<K, V>, a: Action<K, V>)
    requires Enabled(s, a)
    ensures
      var s' := Next(staleness, s, a);
      || (s'.variants == s.variants && |s'.guards| == |s.guards|)
      || (a.Remove? && s'.variants == s.variants - {s.timers[a.t].key} && |s'.guards| == |s.guards|)
      || ((a.LookUp? || a.ReadEntry?) && s' == Install(s, a.r))
  {
  }

  lemma {:induction false} LinkKept<K, V>(staleness: nat, s: State<K, V>, a: Action<K, V>, k: K)
    requires Enabled(s, a) && k in Next(staleness, s, a).variants
    requires k in s.variants ==>
      s.variants[k] < |s.guards| && s.guards[s.variants[k]].owner < |s.reqs|
      && s.reqs[s.guards[s.variants[k]].owner].key == k
    ensures
      var s' := Next(staleness, s, a);
      && s'.variants[k] < |s'.guards| && s'.guards[s'.variants[k]].owner < |s'.reqs|
      && s'.reqs[s'.guards[s'.variants[k]].owner].key == k
  {
    HistoryKept(staleness, s, a);
    VariantsChange(staleness, s, a);
  }

  lemma {:induction false} NewestKept<K, V>(staleness: nat, s: State<K, V>, a: Action<K, V>, g: GuardId)
    requires Enabled(s, a) && g < |Next(staleness, s, a).guards|
    requires g < |s.guards| ==>
      s.guards[g].owner < |s.reqs| &&
      (var k := s.reqs[s.guards[g].owner].key; k in s.variants ==> g <= s.variants[k])
    ensures
      var s' := Next(staleness, s, a);
      s'.guards[g].owner < |s'.reqs| &&
      (var k := s'.reqs[s'.guards[g].owner].key; k in s'.variants ==> g <= s'.variants[k])
  {
    HistoryKept(staleness, s, a);
    VariantsChange(staleness, s, a);
  }

  lemma {:induction false} VariantsKept<K, V>(staleness: nat, s: State<K, V>, a: Action<K, V>)
    requires VariantsOk(s) && Enabled(s, a)
    ensures VariantsOk(Next(staleness, s, a))
  {
    hide Next, Enabled;
    var s' := Next(staleness, s, a);
    forall k | k in s'.variants
      ensures s'.variants[k] < |s'.guards| && s'.guards[s'.variants[k]].owner < |s'.reqs|
        && s'.reqs[s'.guards[s'.variants[k]].owner].key == k
    {
      LinkKept(staleness, s, a, k);
    }
    forall g: nat | g < |s'.guards|
      ensures s'.guards[g].owner < |s'.reqs|
      ensures s'.reqs[s'.guards[g].owner].key in s'.variants ==> g <= s'.variants[s'.reqs[s'.guards[g].owner].key]
    {
      NewestKept(staleness, s, a, g);
    }
  }

  lemma {:induction false} TicketsBelow<K, V>(staleness: nat, s: State<K, V>)
    requires Inv(staleness, s)
    ensures forall i | 0 <= i < |s.queue| :: TicketOf(s, s.queue[i]) < s.tickets
  {
    forall i | 0 <= i < |s.queue| ensures TicketOf(s, s.queue[i]) < s.tickets {
      match s.queue[i] {
        case Req(r) => assert ReqOk(s, r);
        case Tim(t) => assert TimerOk(staleness, s, t);
      }
    }
  }

  lemma {:induction false} WaiterKept<K, V>(staleness: nat, s: State<K, V>, a: Action<K, V>, w: Waiter)
    requires Enabled(s, a) && InLine(s, w)
    requires a.Grant? ==> w != s.queue[0]
    requires a.Abandon? ==> w != s.queue[a.i]
    ensures InLine(Next(staleness, s, a), w)
    ensures TicketOf(Next(staleness, s, a), w) == TicketOf(s, w)
  {
  }

  /** Where the `i`-th waiter after a step stood before it. */
  function PlaceBefore<K, V>(a: Action<K, V>, i: nat): nat {
    if a.Grant? || (a.Abandon? && i >= a.i) then i + 1 else i
  }

  lemma {:induction false} PlacesKept<K, V>(staleness: nat, s: State<K, V>, a: Action<K, V>, i: nat)
    requires Enabled(s, a) && i < |Next(staleness, s, a).queue|
    requires PlaceBefore(a, i) < |s.queue| ==> InLine(s, s.queue[PlaceBefore(a, i)])
    requires forall j | 0 <= j < |s.queue| && j != PlaceBefore(a, i) && PlaceBefore(a, i) < |s.queue| ::
      s.queue[j] != s.queue[PlaceBefore(a, i)]
    ensures
      var s' := Next(staleness, s, a);
      && InLine(s', s'.queue[i])
      && PlaceBefore(a, i) <= |s.queue|
      && TicketOf(s', s'.queue[i])
         == if PlaceBefore(a, i) < |s.queue| then TicketOf(s, s.queue[PlaceBefore(a, i)]) else s.tickets
  {
    if PlaceBefore(a, i) < |s.queue| {
      assert Next(staleness, s, a).queue[i] == s.queue[PlaceBefore(a, i)];
      WaiterKept(staleness, s, a, s.queue[PlaceBefore(a, i)]);
    }
  }

  lemma {:induction false} QueueKept<K, V>(staleness: nat, s: State<K, V>, a: Action<K, V>)
    requires QueueOk(s) && Enabled(s, a)
    requires forall i | 0 <= i < |s.queue| :: TicketOf(s, s.queue[i]) < s.tickets
    ensures QueueOk(Next(staleness, s, a))
  {
    var s' := Next(staleness, s, a);
    assert forall i, j | 0 <= i < |s.queue| && 0 <= j < |s.queue| && i != j :: s.queue[i] != s.queue[j];
    forall i | 0 <= i < |s'.queue| ensures InLine(s', s'.queue[i]) {
      PlacesKept(staleness, s, a, i);
    }
    forall i, j | 0 <= i < j < |s'.queue| ensures TicketOf(s', s'.queue[i]) < TicketOf(s', s'.queue[j]) {
      PlacesKept(staleness, s, a, i);
      PlacesKept(staleness, s, a, j);
    }
  }

  lemma {:induction false} HolderKept<K, V>(staleness: nat, s: State<K, V>, a: Action<K, V>)
    requires HolderOk(s) && Enabled(s, a) && ActorOk(staleness, s, a)
    ensures HolderOk(Next(staleness, s, a))
  {
  }

  lemma {:induction false} FifoKept<K, V>(staleness: nat, s: State<K, V>, a: Action<K, V>)
    requires Inv(staleness, s) && Enabled(s, a)
    ensures Fifo(Next(staleness, s, a))
  {
    hide GuardsOk, VariantsOk, LedBeforeRemoval, TicketsTimed, Linked;
    var s' := Next(staleness, s, a);
    forall r: nat, t: nat | r < |s'.reqs| && t < |s'.timers| && Passed(s'.reqs[r].stage)
      && Queued(s'.timers[t].stage) && s'.timers[t].stage.ticket < s'.reqs[r].ticket
      ensures s'.timers[t].stage.Gone?
    {
      assert ReqOk(s, r);
      assert TimerOk(staleness, s, t);
    }
  }

  /** A ticket is drawn once, when the timer lines up. */
  lemma {:induction false} TicketKept<K, V>(staleness: nat, s: State<K, V>, a: Action<K, V>, t: TimerId)
    requires Enabled(s, a) && t < |Next(staleness, s, a).timers| && Queued(Next(staleness, s, a).timers[t].stage)
    ensures t < |s.timers| && Next(staleness, s, a).timers[t].fetch == s.timers[t].fetch
    ensures
      var stage := Next(staleness, s, a).timers[t].stage;
      || (Queued(s.timers[t].stage) && stage.ticket == s.timers[t].stage.ticket && stage.at == s.timers[t].stage.at)
      || (a == LineUp(t) && stage.ticket == s.tickets && stage.at == s.now)
  {
  }

  lemma {:induction false} LedOnlyByLookUp<K, V>(staleness: nat, s: State<K, V>, a: Action<K, V>, r: ReqId)
    requires Enabled(s, a) && r < |Next(staleness, s, a).reqs| && Led(Next(staleness, s, a).reqs[r].stage).Some?
    ensures r < |s.reqs| && Next(staleness, s, a).reqs[r].ticket == s.reqs[r].ticket
    ensures
      || Led(s.reqs[r].stage) == Led(Next(staleness, s, a).reqs[r].stage)
      || (a == LookUp(r) && Linked(s, s.reqs[r].key, Led(Next(staleness, s, a).reqs[r].stage).value))
  {
  }

  /** At look-up: the removal of the linked guard, if queued at all, has queued later. */
  lemma {:induction false} LinkedMeansRemovalLater<K, V>(staleness: nat, s: State<K, V>, r: ReqId, t: TimerId)
    requires Fifo(s) && r < |s.reqs| && s.reqs[r].stage.Locked?
    requires t < |s.timers| && TimerOk(staleness, s, t) && Queued(s.timers[t].stage)
    requires s.reqs[r].key in s.variants && s.variants[s.reqs[r].key] < |s.guards|
    requires GuardOk(s, s.variants[s.reqs[r].key])
    requires s.guards[s.variants[s.reqs[r].key]].owner == s.timers[t].fetch
    requires s.reqs[s.timers[t].fetch].key == s.reqs[r].key
    ensures s.reqs[r].ticket <= s.timers[t].stage.ticket
  {
  }

  lemma {:induction false} LedKept<K, V>(staleness: nat, s: State<K, V>, a: Action<K, V>)
    requires Inv(staleness, s) && Enabled(s, a)
    ensures LedBeforeRemoval(Next(staleness, s, a))
  {
    var s' := Next(staleness, s, a);
    forall r: nat, t: nat | r < |s'.reqs| && t < |s'.timers| && Led(s'.reqs[r].stage).Some?
      && Led(s'.reqs[r].stage).value < |s'.guards|
      && s'.guards[Led(s'.reqs[r].stage).value].owner == s'.timers[t].fetch
      && Queued(s'.timers[t].stage)
      ensures s'.reqs[r].ticket <= s'.timers[t].stage.ticket
    {
      LedOnlyByLookUp(staleness, s, a, r);
      TicketKept(staleness, s, a, t);
      HistoryKept(staleness, s, a);
      assert ReqOk(s, r);
      assert TimerOk(staleness, s, t);
      if a == LookUp(r) && Led(s.reqs[r].stage) != Led(s'.reqs[r].stage) {
        assert GuardOk(s, s.variants[s.reqs[r].key]);
        LinkedMeansRemovalLater(staleness, s, r, t);
      }
    }
  }

  lemma {:induction false} TicketsKept<K, V>(staleness: nat, s: State<K, V>, a: Action<K, V>)
    requires Inv(staleness, s) && Enabled(s, a)
    ensures TicketsTimed(Next(staleness, s, a))
  {
    hide GuardsOk, VariantsOk, LedBeforeRemoval, Fifo, HolderOk, Linked;
    var s' := Next(staleness, s, a);
    forall r: nat, t: nat | r < |s'.reqs| && t < |s'.timers| && Queued(s'.timers[t].stage)
      && s'.reqs[r].ticket <= s'.timers[t].stage.ticket
      ensures s'.reqs[r].arrived <= s'.timers[t].stage.at
    {
      if t < |s.timers| { assert TimerOk(staleness, s, t); }
      if r < |s.reqs| { assert ReqOk(s, r); }
    }
  }

  lemma {:induction false} StepKeepsInv<K, V>(staleness: nat, s: State<K, V>, a: Action<K, V>)
    requires Inv(staleness, s) && Enabled(s, a)
    ensures Inv(staleness, Next(staleness, s, a))
  {
    InvGivesActorOk(staleness, s, a);
    TicketsBelow(staleness, s);
    GuardsKept(staleness, s, a);
    ReqsKept(staleness, s, a);
    TimersKept(staleness, s, a);
    VariantsKept(staleness, s, a);
    QueueKept(staleness, s, a);
    HolderKept(staleness, s, a);
    FifoKept(staleness, s, a);
    LedKept(staleness, s, a);
    TicketsKept(staleness, s, a);
  }

  /** The empty cache keeps the invariant. */
  lemma {:induction false} StartInv<K, V>(staleness: nat, s: State<K, V>)
    requires s.reqs == [] && s.guards == [] && s.timers == []
    requires s.variants == map[] && s.queue == [] && s.holder.None?
    ensures Inv(staleness, s)
  {
  }

  lemma {:induction false} RunKeepsInv<K, V>(staleness: nat, s: State<K, V>, acts: seq<Action<K, V>>)
    requires Inv(staleness, s) && Legal(staleness, s, acts)
    ensures Inv(staleness, After(staleness, s, acts))
    decreases |acts|
  {
    if acts != [] {
      StepKeepsInv(staleness, s, acts[0]);
      RunKeepsInv(staleness, Next(staleness, s, acts[0]), acts[1..]);
    }
  }
}
