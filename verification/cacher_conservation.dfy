/**
 How many fetches of one key run at once, and how often the backend is asked.

 An uncacheable completion leaves a timer behind whose removal, by key, may hit somebody
 else's guard.  What is conserved: per key, fetches in flight whose guard is out of the map,
 plus pending removals whose own guard is not both linked and filled, never outnumber the
 uncacheable completions.
 */
module CacherConservation {
  import opened Wrappers
  import opened DeadlineCacher
  import opened CacherInvariant
  import opened CacherSafety

  function InFlight<K(==), V>(s: State<K, V>, k: K): set<ReqId> {
    set r: nat | r < |s.reqs| && s.reqs[r].key == k && s.reqs[r].stage.Fetching?
  }

  /** Fetches in flight whose guard the map no longer holds. */
  function Orphans<K(==), V>(s: State<K, V>, k: K): set<ReqId> {
    set r: nat | r < |s.reqs| && s.reqs[r].key == k && s.reqs[r].stage.Fetching?
      && !Linked(s, k, s.reqs[r].stage.guard)
  }

  predicate OwnEntryLive<K(==), V>(s: State<K, V>, f: ReqId)
    requires f < |s.reqs| && s.reqs[f].stage.Fetched?
  {
    var g := s.reqs[f].stage.guard;
    Linked(s, s.reqs[f].key, g) && g < |s.guards| && s.guards[g].content.Some?
  }

  /** Pending removals whose own guard is not both linked and filled. */
  function StrayTimers<K(==), V>(s: State<K, V>, k: K): set<TimerId> {
    set t: nat | t < |s.timers| && s.timers[t].key == k && !s.timers[t].stage.Gone?
      && !(s.timers[t].fetch < |s.reqs| && s.reqs[s.timers[t].fetch].stage.Fetched?
           && OwnEntryLive(s, s.timers[t].fetch))
  }

  /** Fetches that completed and must not be cached. */
  function Uncacheable<K(==), V>(s: State<K, V>, k: K): set<ReqId> {
    set r: nat | r < |s.reqs| && s.reqs[r].key == k && s.reqs[r].stage.Fetched? && !s.reqs[r].stage.cacheable
  }

  /** Orphaned, or completed with a stray removal pending: both kinds, told by their request. */
  predicate Loose<K(==), V>(s: State<K, V>, r: ReqId)
    requires r < |s.reqs|
  {
    match s.reqs[r].stage
    case Fetching(g) => !Linked(s, s.reqs[r].key, g)
    case Fetched(_, _, _, _, t) => t < |s.timers| && !s.timers[t].stage.Gone? && !OwnEntryLive(s, r)
    case _ => false
  }

  function LooseOnes<K(==), V>(s: State<K, V>, k: K): set<ReqId> {
    set r: nat | r < |s.reqs| && s.reqs[r].key == k && Loose(s, r)
  }

  /** The request, if any, whose guard a removal by key takes out of the map. */
  function Victim<K(==), V>(s: State<K, V>, k: K): Option<ReqId> {
    if k in s.variants && s.variants[k] < |s.guards| then Some(s.guards[s.variants[k]].owner) else None
  }

  lemma {:induction false} LooseByInstall<K, V>(s: State<K, V>, r: ReqId, q: ReqId)
    requires r < |s.reqs| && (s.reqs[r].stage.Locked? || s.reqs[r].stage.Reading?) && q < |s.reqs|
    requires s.reqs[r].key in s.variants ==>
      s.variants[s.reqs[r].key] < |s.guards| && !s.guards[s.variants[s.reqs[r].key]].locked
      && s.guards[s.variants[s.reqs[r].key]].content.None?
    requires s.reqs[q].stage.Fetching? ==> s.reqs[q].stage.guard < |s.guards| && s.guards[s.reqs[q].stage.guard].locked
    requires Loose(Install(s, r), q)
    ensures Loose(s, q)
  {
  }

  lemma {:induction false} LooseByComplete<K, V>(staleness: nat, s: State<K, V>, a: Action<K, V>, q: ReqId)
    requires a.Complete? && Enabled(s, a) && q < |s.reqs|
    requires s.guards[s.reqs[a.r].stage.guard].owner == a.r
    requires s.reqs[q].stage.Fetched? ==>
      s.reqs[q].stage.guard < |s.guards| && s.guards[s.reqs[q].stage.guard].owner == q
        && s.reqs[q].stage.timer < |s.timers|
    requires Loose(Next(staleness, s, a), q)
    ensures Loose(s, q) || (q == a.r && !a.cacheable)
  {
  }

  lemma {:induction false} LooseByRemove<K, V>(staleness: nat, s: State<K, V>, a: Action<K, V>, q: ReqId)
    requires a.Remove? && Enabled(s, a) && q < |s.reqs|
    requires s.reqs[q].stage.Fetching? || s.reqs[q].stage.Fetched? ==>
      s.reqs[q].stage.guard < |s.guards| && s.guards[s.reqs[q].stage.guard].owner == q
    requires Loose(Next(staleness, s, a), q)
    ensures Loose(s, q) || (s.reqs[q].key == s.timers[a.t].key && Victim(s, s.timers[a.t].key) == Some(q))
    ensures s.reqs[q].stage.Fetched? ==> s.reqs[q].stage.timer != a.t
  {
  }

  lemma {:induction false} LooseElse<K, V>(staleness: nat, s: State<K, V>, a: Action<K, V>, q: ReqId)
    requires Enabled(s, a) && !a.Complete? && !a.Remove? && !a.LookUp? && !a.ReadEntry?
    requires q < |Next(staleness, s, a).reqs| && Loose(Next(staleness, s, a), q)
    requires a.Cancel? && s.reqs[a.r].stage.Fetching? ==> s.guards[s.reqs[a.r].stage.guard].owner == a.r
    ensures q < |s.reqs| && Loose(s, q)
  {
  }

  /** Which requests can be loose after a step. */
  lemma {:induction false} LooseAfter<K, V>(staleness: nat, s: State<K, V>, a: Action<K, V>, q: ReqId)
    requires Inv(staleness, s) && Enabled(s, a)
    requires q < |Next(staleness, s, a).reqs| && Loose(Next(staleness, s, a), q)
    ensures q < |s.reqs|
    ensures
      || Loose(s, q)
      || (a.Complete? && q == a.r && !a.cacheable)
      || (a.Remove? && s.reqs[q].key == s.timers[a.t].key && Victim(s, s.timers[a.t].key) == Some(q))
    ensures a.Remove? && s.reqs[q].stage.Fetched? ==> s.reqs[q].stage.timer != a.t
  {
    hide Fifo, LedBeforeRemoval, TicketsTimed, QueueOk;
    InvGivesActorOk(staleness, s, a);
    if q < |s.reqs| {
      assert ReqOk(s, q);
      if s.reqs[q].stage.Fetching? || s.reqs[q].stage.Fetched? { assert GuardOk(s, s.reqs[q].stage.guard); }
    }
    match a {
      case LookUp(r) =>
        if s.reqs[r].key !in s.variants { LooseByInstall(s, r, q); }
      case ReadEntry(r) =>
        if s.guards[s.reqs[r].stage.guard].content.None? { LooseByInstall(s, r, q); }
      case Complete(_, _, _) => LooseByComplete(staleness, s, a, q);
      case Remove(_) => LooseByRemove(staleness, s, a, q);
      case _ => LooseElse(staleness, s, a, q);
    }
  }

  lemma {:induction false} UncacheableGrows<K, V>(staleness: nat, s: State<K, V>, a: Action<K, V>, k: K)
    requires Enabled(s, a)
    ensures Uncacheable(s, k) <= Uncacheable(Next(staleness, s, a), k)
    ensures a.Complete? && !a.cacheable && s.reqs[a.r].key == k ==>
      Uncacheable(Next(staleness, s, a), k) == Uncacheable(s, k) + {a.r} && a.r !in Uncacheable(s, k)
  {
  }

  lemma {:induction false} SubsetSize(a: set<nat>, b: set<nat>)
    requires a <= b
    ensures |a| <= |b|
  {
    assert b == a + (b - a);
  }

  /** A removal trades the loose fetch it belongs to for at most one new one. */
  lemma {:induction false} RemoveTrades<K, V>(staleness: nat, s: State<K, V>, t: TimerId)
    requires Inv(staleness, s) && Enabled(s, Action<K, V>.Remove(t))
    ensures
      var k := s.timers[t].key;
      |LooseOnes(Next(staleness, s, Remove(t)), k)| <= |LooseOnes(s, k)|
  {
    var k, f := s.timers[t].key, s.timers[t].fetch;
    var s' := Next(staleness, s, Remove(t));
    assert TimerOk(staleness, s, t) && ReqOk(s, f) && GuardOk(s, s.reqs[f].stage.guard);
    var before, after := LooseOnes(s, k), LooseOnes(s', k);
    forall q | q in after
      ensures q != f
      ensures q in before || Victim(s, k) == Some(q)
    {
      LooseAfter(staleness, s, Remove(t), q);
    }
    if Loose(s, f) {
      assert f in before;
      match Victim(s, k) {
        case Some(v) => SubsetSize(after, (before - {f}) + {v});
        case None => SubsetSize(after, before - {f});
      }
    } else {
      assert Victim(s, k) == Some(f);
      SubsetSize(after, before);
    }
  }

  lemma {:induction false} StepConserves<K, V>(staleness: nat, s: State<K, V>, a: Action<K, V>, k: K)
    requires Inv(staleness, s) && Enabled(s, a)
    requires |LooseOnes(s, k)| <= |Uncacheable(s, k)|
    ensures |LooseOnes(Next(staleness, s, a), k)| <= |Uncacheable(Next(staleness, s, a), k)|
  {
    var s' := Next(staleness, s, a);
    UncacheableGrows(staleness, s, a, k);
    SubsetSize(Uncacheable(s, k), Uncacheable(s', k));
    if a.Remove? && s.timers[a.t].key == k {
      RemoveTrades(staleness, s, a.t);
    } else {
      HistoryKept(staleness, s, a);
      var after := LooseOnes(s', k);
      var extra := if a.Complete? && !a.cacheable && s.reqs[a.r].key == k then {a.r} else {};
      forall q | q in after ensures q in LooseOnes(s, k) + extra {
        LooseAfter(staleness, s, a, q);
      }
      SubsetSize(after, LooseOnes(s, k) + extra);
    }
  }

  lemma {:induction false} RunConserves<K, V>(staleness: nat, s: State<K, V>, acts: seq<Action<K, V>>, k: K)
    requires Inv(staleness, s) && Legal(staleness, s, acts)
    requires |LooseOnes(s, k)| <= |Uncacheable(s, k)|
    ensures |LooseOnes(After(staleness, s, acts), k)| <= |Uncacheable(After(staleness, s, acts), k)|
    decreases |acts|
  {
    if acts != [] {
      StepConserves(staleness, s, acts[0], k);
      StepKeepsInv(staleness, s, acts[0]);
      RunConserves(staleness, Next(staleness, s, acts[0]), acts[1..], k);
    }
  }

  /** Two sets paired off by `f` and its inverse `g` have the same size. */
  lemma {:induction false} PairedOff(a: set<nat>, b: set<nat>, f: nat -> nat, g: nat -> nat)
    requires forall x | x in a :: f(x) in b && g(f(x)) == x
    requires forall y | y in b :: g(y) in a && f(g(y)) == y
    ensures |a| == |b|
    decreases a
  {
    if a == {} {
      assert forall y | y in b :: g(y) in a;
    } else {
      var x :| x in a;
      PairedOff(a - {x}, b - {f(x)}, f, g);
    }
  }

  function FetchOf<K, V>(s: State<K, V>): nat -> nat {
    (t: nat) => if t < |s.timers| then s.timers[t].fetch else 0
  }

  function TimerOf<K, V>(s: State<K, V>): nat -> nat {
    (r: nat) => if r < |s.reqs| && s.reqs[r].stage.Fetched? then s.reqs[r].stage.timer else 0
  }

  lemma {:induction false} StrayIsLoose<K, V>(staleness: nat, s: State<K, V>, k: K, t: TimerId)
    requires t in StrayTimers(s, k) && TimerOk(staleness, s, t)
    ensures FetchOf(s)(t) in LooseOnes(s, k) - Orphans(s, k)
    ensures TimerOf(s)(FetchOf(s)(t)) == t
  {
  }

  lemma {:induction false} LooseIsStray<K, V>(staleness: nat, s: State<K, V>, k: K, q: ReqId)
    requires q in LooseOnes(s, k) - Orphans(s, k) && ReqOk(s, q) && TimersOk(staleness, s)
    ensures TimerOf(s)(q) in StrayTimers(s, k)
    ensures FetchOf(s)(TimerOf(s)(q)) == q
  {
    assert TimerOk(staleness, s, s.reqs[q].stage.timer);
  }

  /** Loose fetches are the orphans and, one for one, the fetches of the stray timers. */
  lemma {:induction false} LooseCount<K, V>(staleness: nat, s: State<K, V>, k: K)
    requires ReqsOk(s) && TimersOk(staleness, s)
    ensures |Orphans(s, k)| + |StrayTimers(s, k)| == |LooseOnes(s, k)|
  {
    var stray, loose, orphans := StrayTimers(s, k), LooseOnes(s, k), Orphans(s, k);
    forall t | t in stray
      ensures FetchOf(s)(t) in loose - orphans && TimerOf(s)(FetchOf(s)(t)) == t
    {
      assert TimerOk(staleness, s, t);
      StrayIsLoose(staleness, s, k, t);
    }
    forall q | q in loose - orphans
      ensures TimerOf(s)(q) in stray && FetchOf(s)(TimerOf(s)(q)) == q
    {
      assert ReqOk(s, q);
      LooseIsStray(staleness, s, k, q);
    }
    PairedOff(stray, loose - orphans, FetchOf(s), TimerOf(s));
    OrphansAreLoose(s, k);
    assert loose == orphans + (loose - orphans);
  }

  lemma {:induction false} OrphansAreLoose<K, V>(s: State<K, V>, k: K)
    ensures Orphans(s, k) <= LooseOnes(s, k)
  {
  }

  /** The conservation law, in every reachable state and for every key. */
  lemma {:induction false} Conservation<K(!new), V(!new)>(staleness: nat, s: State<K, V>, k: K)
    requires Reachable(staleness, s)
    ensures |Orphans(s, k)| + |StrayTimers(s, k)| <= |Uncacheable(s, k)|
  {
    var acts :| Legal(staleness, Init<K, V>(), acts) && After(staleness, Init<K, V>(), acts) == s;
    ConservedFrom(staleness, Init<K, V>(), acts, s, k);
  }

  lemma {:induction false} InvParts<K, V>(staleness: nat, s: State<K, V>)
    requires Inv(staleness, s)
    ensures ReqsOk(s) && TimersOk(staleness, s)
  {
  }

  lemma {:induction false} ConservedFrom<K, V>(
    staleness: nat, s0: State<K, V>, acts: seq<Action<K, V>>, s: State<K, V>, k: K)
    requires s0 == Init<K, V>() && Legal(staleness, s0, acts) && s == After(staleness, s0, acts)
    ensures |Orphans(s, k)| + |StrayTimers(s, k)| <= |Uncacheable(s, k)|
  {
    hide *;
    StartConserved(staleness, s0, k);
    RunConserves(staleness, s0, acts, k);
    RunKeepsInv(staleness, s0, acts);
    InvParts(staleness, s);
    LooseCount(staleness, s, k);
  }

  /** Hence at most one fetch of a key beyond its uncacheable completions is in flight. */
  lemma {:induction false} FetchesBounded<K(!new), V(!new)>(staleness: nat, s: State<K, V>, k: K)
    requires Reachable(staleness, s)
    ensures |InFlight(s, k)| <= 1 + |Uncacheable(s, k)|
  {
    Conservation(staleness, s, k);
    ReachableInv(staleness, s);
    match Victim(s, k) {
      case Some(v) =>
        forall r | r in InFlight(s, k) ensures r in Orphans(s, k) + {v} { assert ReqOk(s, r); }
        SubsetSize(InFlight(s, k), Orphans(s, k) + {v});
      case None =>
        forall r | r in InFlight(s, k) ensures r in Orphans(s, k) { assert ReqOk(s, r); }
        SubsetSize(InFlight(s, k), Orphans(s, k));
    }
  }

  // ---------- the backend rate ----------

  ghost predicate Spaced<K, V>(staleness: nat, s: State<K, V>, k: K) {
    forall g1: nat, g2: nat | g1 < g2 < |s.guards| && s.guards[g1].owner < |s.reqs| && s.guards[g2].owner < |s.reqs|
      && s.reqs[s.guards[g1].owner].key == k && s.reqs[s.guards[g2].owner].key == k
      && s.reqs[s.guards[g1].owner].stage.Fetched?
      :: s.guards[g2].since >= s.reqs[s.guards[g1].owner].stage.at + staleness
  }

  /** With nothing loose, a new guard for `k` is installed only after every removal of `k` has been due. */
  lemma {:induction false} InstallIsLate<K, V>(staleness: nat, s: State<K, V>, r: ReqId, f: ReqId)
    requires Inv(staleness, s)
    requires r < |s.reqs| && f < |s.reqs| && s.reqs[f].key == s.reqs[r].key && s.reqs[f].stage.Fetched?
    requires !Loose(s, f)
    requires s.reqs[r].key in s.variants ==>
      s.variants[s.reqs[r].key] < |s.guards| && s.guards[s.variants[s.reqs[r].key]].content.None?
    ensures s.now >= s.reqs[f].stage.at + staleness
  {
    assert ReqOk(s, f);
    assert TimerOk(staleness, s, s.reqs[f].stage.timer);
  }

  lemma {:induction false} StepSpaced<K, V>(staleness: nat, s: State<K, V>, a: Action<K, V>, k: K)
    requires Inv(staleness, s) && Enabled(s, a) && Spaced(staleness, s, k)
    requires LooseOnes(s, k) == {}
    ensures Spaced(staleness, Next(staleness, s, a), k)
  {
    var s' := Next(staleness, s, a);
    InvGivesActorOk(staleness, s, a);
    HistoryKept(staleness, s, a);
    forall g1: nat, g2: nat | g1 < g2 < |s'.guards| && s'.guards[g1].owner < |s'.reqs|
      && s'.guards[g2].owner < |s'.reqs|
      && s'.reqs[s'.guards[g1].owner].key == k && s'.reqs[s'.guards[g2].owner].key == k
      && s'.reqs[s'.guards[g1].owner].stage.Fetched?
      ensures s'.guards[g2].since >= s'.reqs[s'.guards[g1].owner].stage.at + staleness
    {
      SpacedPair(staleness, s, a, k, g1, g2);
    }
  }

  lemma {:induction false} SpacedPair<K, V>(
    staleness: nat, s: State<K, V>, a: Action<K, V>, k: K, g1: GuardId, g2: GuardId)
    requires Inv(staleness, s) && Enabled(s, a) && Spaced(staleness, s, k)
    requires LooseOnes(s, k) == {}
    requires
      var s' := Next(staleness, s, a);
      && g1 < g2 < |s'.guards| && s'.guards[g1].owner < |s'.reqs| && s'.guards[g2].owner < |s'.reqs|
      && s'.reqs[s'.guards[g1].owner].key == k && s'.reqs[s'.guards[g2].owner].key == k
      && s'.reqs[s'.guards[g1].owner].stage.Fetched?
    ensures
      var s' := Next(staleness, s, a);
      s'.guards[g2].since >= s'.reqs[s'.guards[g1].owner].stage.at + staleness
  {
    HistoryKept(staleness, s, a);
    var f := s.guards[g1].owner;
    assert GuardOk(s, g1);
    assert f !in LooseOnes(s, k);
    if g2 < |s.guards| {
      assert GuardOk(s, g2);
      if s.reqs[f].stage.Fetched? {
        FetchedStays(staleness, s, a, f);
      } else {
        CompletesWhenNewest(staleness, s, a, f, g2);
      }
    } else {
      InstallSpaced(staleness, s, a, f);
    }
  }

  lemma {:induction false} CompletesWhenNewest<K, V>(
    staleness: nat, s: State<K, V>, a: Action<K, V>, f: ReqId, g2: GuardId)
    requires Inv(staleness, s) && Enabled(s, a) && f < |s.reqs| && !s.reqs[f].stage.Fetched?
    requires Next(staleness, s, a).reqs[f].stage.Fetched?
    requires !Loose(s, f) && g2 < |s.guards| && s.guards[g2].owner < |s.reqs|
      && s.reqs[s.guards[g2].owner].key == s.reqs[f].key
    ensures s.reqs[f].stage.Fetching? && g2 <= s.reqs[f].stage.guard
  {
  }

  lemma {:induction false} InstallSpaced<K, V>(staleness: nat, s: State<K, V>, a: Action<K, V>, f: ReqId)
    requires Inv(staleness, s) && Enabled(s, a) && f < |s.reqs|
    requires |Next(staleness, s, a).guards| > |s.guards|
    requires Next(staleness, s, a).reqs[f].stage.Fetched? && !Loose(s, f)
    requires s.reqs[f].key == Next(staleness, s, a).reqs[Next(staleness, s, a).guards[|s.guards|].owner].key
    ensures Next(staleness, s, a).guards[|s.guards|].since >= Next(staleness, s, a).reqs[f].stage.at + staleness
  {
    InvGivesActorOk(staleness, s, a);
    assert a.LookUp? || a.ReadEntry?;
    InstallIsLate(staleness, s, a.r, f);
  }

  lemma {:induction false} RunSpaced<K, V>(staleness: nat, s: State<K, V>, acts: seq<Action<K, V>>, k: K)
    requires Inv(staleness, s) && Legal(staleness, s, acts) && Spaced(staleness, s, k)
    requires |LooseOnes(s, k)| <= |Uncacheable(s, k)|
    requires Uncacheable(After(staleness, s, acts), k) == {}
    ensures Uncacheable(s, k) == {}
    ensures Spaced(staleness, After(staleness, s, acts), k)
    decreases |acts|
  {
    if acts != [] {
      var s' := Next(staleness, s, acts[0]);
      StepConserves(staleness, s, acts[0], k);
      StepKeepsInv(staleness, s, acts[0]);
      UncacheableGrows(staleness, s, acts[0], k);
      UncacheableGrowsRun(staleness, s', acts[1..], k);
      assert Uncacheable(s, k) == {};
      assert LooseOnes(s, k) == {};
      StepSpaced(staleness, s, acts[0], k);
      RunSpaced(staleness, s', acts[1..], k);
    }
  }

  lemma {:induction false} UncacheableGrowsRun<K, V>(staleness: nat, s: State<K, V>, acts: seq<Action<K, V>>, k: K)
    requires Legal(staleness, s, acts)
    ensures Uncacheable(s, k) <= Uncacheable(After(staleness, s, acts), k)
    decreases |acts|
  {
    if acts != [] {
      UncacheableGrows(staleness, s, acts[0], k);
      UncacheableGrowsRun(staleness, Next(staleness, s, acts[0]), acts[1..], k);
    }
  }

  lemma {:induction false} SpacedFrom<K, V>(
    staleness: nat, s0: State<K, V>, acts: seq<Action<K, V>>, s: State<K, V>, k: K)
    requires s0 == Init<K, V>() && Legal(staleness, s0, acts) && s == After(staleness, s0, acts)
    requires Uncacheable(s, k) == {}
    ensures Spaced(staleness, s, k)
  {
    hide *;
    StartConserved(staleness, s0, k);
    StartSpaced(staleness, s0, k);
    RunSpaced(staleness, s0, acts, k);
  }

  lemma {:induction false} StartConserved<K, V>(staleness: nat, s: State<K, V>, k: K)
    requires s == Init<K, V>()
    ensures Inv(staleness, s) && |LooseOnes(s, k)| <= |Uncacheable(s, k)|
  {
    hide Inv;
    StartInv(staleness, s);
    assert forall r | r in LooseOnes(s, k) :: r < |s.reqs|;
    assert LooseOnes(s, k) == {};
  }

  lemma {:induction false} StartSpaced<K, V>(staleness: nat, s: State<K, V>, k: K)
    requires s == Init<K, V>()
    ensures Spaced(staleness, s, k)
  {
  }

  /**
   While no fetch of `k` has completed uncacheable, every fetch of `k` that starts after some
   completed one starts at least `staleness` after that completion, cancellations or not.
   */
  lemma {:induction false} BackendRate<K(!new), V(!new)>(staleness: nat, s: State<K, V>, k: K, g1: GuardId, g2: GuardId)
    requires Reachable(staleness, s) && Uncacheable(s, k) == {}
    requires g1 < g2 < |s.guards| && s.guards[g1].owner < |s.reqs| && s.guards[g2].owner < |s.reqs|
    requires s.reqs[s.guards[g1].owner].key == k && s.reqs[s.guards[g2].owner].key == k
    requires s.reqs[s.guards[g1].owner].stage.Fetched?
    ensures s.guards[g2].since >= s.reqs[s.guards[g1].owner].stage.at + staleness
  {
    var acts :| Legal(staleness, Init<K, V>(), acts) && After(staleness, Init<K, V>(), acts) == s;
    SpacedFrom(staleness, Init<K, V>(), acts, s, k);
  }
}
