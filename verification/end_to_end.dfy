/**
 Both caches in a row: one proxied target in operation.  The deadline cache keeps its responses;
 each fetch filters one scrape of the backend, under the lock of the sample cache that all
 fetches of the target share.
 */
module EndToEnd {
  import opened Wrappers
  import opened Samples
  import opened SampleCache
  import opened Filters
  import opened FilterLaws
  import opened FilterRuns
  import opened ResolutionAge
  import opened DeadlineCacher
  import opened CacherInvariant
  import opened CacherSafety

  /** A response: the samples of a filtered scrape, or whatever a failed one gives. */
  datatype Page = Scraped(samples: seq<Sample>) | NoScrape

  type System = State<string, Page>

  /**
   The two caches, and the samples of the fetches that have been through the filters.  The
   last two fields record history only: all visits, and the fetch of each.
   */
  datatype Target = Target(
    cache: System,
    shelf: Shelf,
    filtered: map<ReqId, seq<Sample>>,
    visits: seq<Visit>,
    fetchers: seq<ReqId>)

  datatype Step =
    | Cache(a: Action<string, Page>)
    | Filter(f: ReqId, now: nat, scrape: Scrape, draws: seq<seq<real>>)

  function Start(): Target {
    Target(Init(), map[], map[], [], [])
  }

  /**
   A fetch filters one scrape, with a clock it has read since it began.  It completes with the
   samples that came out, as a success, or without any; or it is dropped, before or after.
   */
  predicate CanStep(selectors: seq<Selector>, t: Target, step: Step) {
    match step
    case Cache(a) =>
      && Enabled(t.cache, a)
      && (a.Complete? && a.value.Scraped? ==>
            a.cacheable && a.r in t.filtered && a.value.samples == t.filtered[a.r])
    case Filter(f, now, scrape, draws) =>
      && f < |t.cache.reqs| && t.cache.reqs[f].stage.Fetching? && f !in t.filtered
      && t.cache.reqs[f].stage.guard < |t.cache.guards|
      && t.cache.guards[t.cache.reqs[f].stage.guard].since <= now <= t.cache.now
      && ScrapeDrawsFit(selectors, scrape.samples, draws)
  }

  function AfterStep(staleness: nat, selectors: seq<Selector>, t: Target, step: Step): Target
    requires CanStep(selectors, t, step)
  {
    match step
    case Cache(a) => t.(cache := Next(staleness, t.cache, a))
    case Filter(f, now, scrape, draws) =>
      var l := FilterScrape(selectors, t.shelf, now, scrape, draws);
      t.(shelf := l.shelf,
         filtered := t.filtered[f := l.samples],
         visits := t.visits + VisitsOf(now, scrape.samples, draws),
         fetchers := t.fetchers + seq(|scrape.samples|, i => f))
  }

  predicate CanRun(staleness: nat, selectors: seq<Selector>, t: Target, steps: seq<Step>)
    decreases |steps|
  {
    steps == []
    || (&& CanStep(selectors, t, steps[0])
        && CanRun(staleness, selectors, AfterStep(staleness, selectors, t, steps[0]), steps[1..]))
  }

  function AfterRun(staleness: nat, selectors: seq<Selector>, t: Target, steps: seq<Step>): Target
    requires CanRun(staleness, selectors, t, steps)
    decreases |steps|
  {
    if steps == [] then t
    else AfterRun(staleness, selectors, AfterStep(staleness, selectors, t, steps[0]), steps[1..])
  }

  /** Removal timers queue within `lag` of being due, all along the run. */
  predicate PromptRun(staleness: nat, lag: nat, selectors: seq<Selector>, t: Target, steps: seq<Step>)
    requires CanRun(staleness, selectors, t, steps)
    decreases |steps|
  {
    && OnTime(staleness, lag, t.cache)
    && (steps == [] || PromptRun(staleness, lag, selectors, AfterStep(staleness, selectors, t, steps[0]), steps[1..]))
  }

  /** The target can be in this state, its removal timers having been prompt all along. */
  ghost predicate Ran(staleness: nat, lag: nat, selectors: seq<Selector>, t: Target) {
    exists steps ::
      && CanRun(staleness, selectors, Start(), steps)
      && PromptRun(staleness, lag, selectors, Start(), steps)
      && AfterRun(staleness, selectors, Start(), steps) == t
  }

  // ---------- what every step keeps ----------

  /** The clock reading `now` fell into the fetch of request `f`. */
  predicate DuringFetch(s: System, f: ReqId, now: nat) {
    f < |s.reqs| && (
      match s.reqs[f].stage
      case Fetching(g) => g < |s.guards| && s.guards[g].since <= now <= s.now
      case Fetched(g, _, _, at, _) => g < |s.guards| && s.guards[g].since <= now <= at
      case Cancelled => true
      case _ => false)
  }

  /** `x` came out of visit `i`, made by the fetch of request `f`. */
  ghost predicate From(
    selectors: seq<Selector>, visits: seq<Visit>, fetchers: seq<ReqId>, f: ReqId, i: nat, x: Sample) {
    i < |fetchers| && fetchers[i] == f && Emits(selectors, visits, i, x)
  }

  ghost predicate FilteredFrom(selectors: seq<Selector>, t: Target) {
    forall f, x | f in t.filtered && x in t.filtered[f] ::
      exists i: nat :: From(selectors, t.visits, t.fetchers, f, i, x)
  }

  /** A page with samples has those that came out of its own fetch's filtering. */
  predicate PageOk(t: Target, f: ReqId)
    requires f < |t.cache.reqs|
  {
    t.cache.reqs[f].stage.Fetched? && t.cache.reqs[f].stage.value.Scraped? ==>
      f in t.filtered && t.cache.reqs[f].stage.value.samples == t.filtered[f]
  }

  /** The sample cache is what the visits so far have made it, in the order of the lock. */
  predicate ShelfOk(selectors: seq<Selector>, t: Target) {
    VisitsFit(selectors, t.visits) && |t.fetchers| == |t.visits| && t.shelf == ShelfAfter(selectors, t.visits)
  }

  predicate VisitsTimed(t: Target) {
    |t.fetchers| == |t.visits|
    && forall i | 0 <= i < |t.visits| :: DuringFetch(t.cache, t.fetchers[i], t.visits[i].now)
  }

  predicate PagesOk(t: Target) {
    forall f: nat | f < |t.cache.reqs| :: PageOk(t, f)
  }

  ghost predicate Sound(staleness: nat, lag: nat, selectors: seq<Selector>, t: Target) {
    && Inv(staleness, t.cache) && QueuedOnTime(staleness, lag, t.cache)
    && ShelfOk(selectors, t) && FilteredFrom(selectors, t) && VisitsTimed(t) && PagesOk(t)
  }

  lemma {:induction false} StaysDuringFetch(staleness: nat, s: System, a: Action<string, Page>, f: ReqId, now: nat)
    requires Enabled(s, a) && DuringFetch(s, f, now)
    ensures DuringFetch(Next(staleness, s, a), f, now)
  {
  }

  lemma {:induction false} PageStaysOk(
    staleness: nat, selectors: seq<Selector>, t: Target, a: Action<string, Page>, f: ReqId)
    requires CanStep(selectors, t, Cache(a)) && f < |Next(staleness, t.cache, a).reqs|
    requires f < |t.cache.reqs| ==> PageOk(t, f)
    ensures PageOk(AfterStep(staleness, selectors, t, Cache(a)), f)
  {
  }

  lemma {:induction false} CacheStepSound(
    staleness: nat, lag: nat, selectors: seq<Selector>, t: Target, a: Action<string, Page>)
    requires CanStep(selectors, t, Cache(a)) && Sound(staleness, lag, selectors, t) && OnTime(staleness, lag, t.cache)
    ensures Sound(staleness, lag, selectors, AfterStep(staleness, selectors, t, Cache(a)))
  {
    hide Inv, OnTime, QueuedOnTime, Next, PageOk, DuringFetch;
    var t' := AfterStep(staleness, selectors, t, Cache(a));
    StepKeepsInv(staleness, t.cache, a);
    OnTimeStep(staleness, lag, t.cache, a);
    forall i | 0 <= i < |t.visits| ensures DuringFetch(t'.cache, t.fetchers[i], t.visits[i].now) {
      StaysDuringFetch(staleness, t.cache, a, t.fetchers[i], t.visits[i].now);
    }
    forall f: nat | f < |t'.cache.reqs| ensures PageOk(t', f) {
      PageStaysOk(staleness, selectors, t, a, f);
    }
  }

  lemma {:induction false} FilterStepSound(
    staleness: nat, lag: nat, selectors: seq<Selector>, t: Target, f: ReqId, now: nat, scrape: Scrape,
    draws: seq<seq<real>>)
    requires CanStep(selectors, t, Filter(f, now, scrape, draws)) && Sound(staleness, lag, selectors, t)
    ensures Sound(staleness, lag, selectors, AfterStep(staleness, selectors, t, Filter(f, now, scrape, draws)))
  {
    hide Inv, QueuedOnTime, ShelfAfter, FilterSamples, VisitsFit, Emits;
    var t' := AfterStep(staleness, selectors, t, Filter(f, now, scrape, draws));
    ScrapeExtendsRun(selectors, t.visits, scrape.docs, now, scrape.samples, draws);
    forall g, x | g in t'.filtered && x in t'.filtered[g]
      ensures exists i: nat :: From(selectors, t'.visits, t'.fetchers, g, i, x)
    {
      var i := FromLonger(selectors, t, f, now, scrape, draws, g, x);
    }
    forall g: nat | g < |t'.cache.reqs| ensures PageOk(t', g) {
      assert PageOk(t, g);
    }
    forall i | 0 <= i < |t'.visits| ensures DuringFetch(t'.cache, t'.fetchers[i], t'.visits[i].now) {
      assert i < |t.visits| ==> DuringFetch(t.cache, t.fetchers[i], t.visits[i].now);
    }
  }

  lemma {:induction false} FromLonger(
    selectors: seq<Selector>, t: Target, f: ReqId, now: nat, scrape: Scrape, draws: seq<seq<real>>, g: ReqId, x: Sample)
    returns (i: nat)
    requires CanStep(selectors, t, Filter(f, now, scrape, draws)) && ShelfOk(selectors, t) && FilteredFrom(selectors, t)
    requires
      var filtered := AfterStep(0, selectors, t, Filter(f, now, scrape, draws)).filtered;
      g in filtered && x in filtered[g]
    ensures
      var t' := AfterStep(0, selectors, t, Filter(f, now, scrape, draws));
      From(selectors, t'.visits, t'.fetchers, g, i, x)
  {
    hide ShelfAfter, FilterSamples, VisitsFit, Emits;
    if g == f {
      i := ScrapeEmits(selectors, t.visits, scrape.docs, now, scrape.samples, draws, x);
    } else {
      i :| From(selectors, t.visits, t.fetchers, g, i, x);
      ScrapeExtendsRun(selectors, t.visits, scrape.docs, now, scrape.samples, draws);
      EmitsLonger(selectors, t.visits, t.visits + VisitsOf(now, scrape.samples, draws), i, x);
    }
  }

  lemma {:induction false} RunSound(staleness: nat, lag: nat, selectors: seq<Selector>, t: Target, steps: seq<Step>)
    requires Sound(staleness, lag, selectors, t) && CanRun(staleness, selectors, t, steps)
    requires PromptRun(staleness, lag, selectors, t, steps)
    ensures Sound(staleness, lag, selectors, AfterRun(staleness, selectors, t, steps))
    ensures OnTime(staleness, lag, AfterRun(staleness, selectors, t, steps).cache)
    decreases |steps|
  {
    hide Sound, OnTime, CanStep, AfterStep;
    if steps != [] {
      match steps[0] {
        case Cache(a) => CacheStepSound(staleness, lag, selectors, t, a);
        case Filter(f, now, scrape, draws) => FilterStepSound(staleness, lag, selectors, t, f, now, scrape, draws);
      }
      RunSound(staleness, lag, selectors, AfterStep(staleness, selectors, t, steps[0]), steps[1..]);
    }
  }

  lemma {:induction false} StartSound(staleness: nat, lag: nat, selectors: seq<Selector>)
    ensures Sound(staleness, lag, selectors, Start())
  {
    hide Inv, QueuedOnTime;
    StartOnTime(staleness, lag, Start().cache);
  }

  // ---------- how old an answer can be ----------

  /** What request `r` was answered. */
  function Answer(s: System, r: ReqId): Option<Page>
    requires r < |s.reqs|
  {
    match s.reqs[r].stage
    case Hit(_, page) => Some(page)
    case Fetched(_, page, _, _, _) => Some(page)
    case _ => None
  }

  /** The fetch behind an answer, and how long before it the request can have arrived. */
  lemma {:induction false} FetchBehind(staleness: nat, lag: nat, s: System, r: ReqId) returns (f: ReqId)
    requires Inv(staleness, s) && OnTime(staleness, lag, s) && QueuedOnTime(staleness, lag, s)
    requires r < |s.reqs| && Answer(s, r).Some?
    ensures f < |s.reqs| && s.reqs[f].key == s.reqs[r].key && s.reqs[f].stage.Fetched?
    ensures Answer(s, r) == Some(s.reqs[f].stage.value)
    ensures s.reqs[f].stage.guard < |s.guards|
    ensures s.reqs[r].stage.Fetched? ==> f == r && s.reqs[r].arrived <= s.guards[s.reqs[f].stage.guard].since
    ensures s.reqs[r].stage.Hit? ==> s.reqs[r].arrived <= s.reqs[f].stage.at + staleness + lag
  {
    if s.reqs[r].stage.Hit? {
      HitOwner(staleness, s, r);
      HitAgeInState(staleness, lag, s, r);
      f := s.guards[s.reqs[r].stage.guard].owner;
    } else {
      f := r;
      assert ReqOk(s, r);
      assert GuardOk(s, s.reqs[r].stage.guard);
    }
  }

  /** The visit that scraped a sample of a fetched page, and how long before the fetch it can have been. */
  lemma {:induction false} VisitBehind(
    staleness: nat, lag: nat, selectors: seq<Selector>, t: Target, f: ReqId, x: Sample, n: nat) returns (k: nat)
    requires Sound(staleness, lag, selectors, t)
    requires f < |t.cache.reqs| && t.cache.reqs[f].stage.Fetched? && t.cache.reqs[f].stage.guard < |t.cache.guards|
    requires t.cache.reqs[f].stage.value.Scraped? && x in t.cache.reqs[f].stage.value.samples
    requires Steady(Plan(selectors, SeriesOf(x))) && n > 0 && ResolutionsWithin(Plan(selectors, SeriesOf(x)), n)
    ensures k < |t.visits| && MadeFrom(selectors, x, t.visits[k])
    ensures t.cache.guards[t.cache.reqs[f].stage.guard].since < t.visits[k].now + n
  {
    hide Inv, QueuedOnTime, ShelfAfter, VisitsFit, Emits, Plan, Steady, MadeFrom;
    assert PageOk(t, f);
    var i: nat :| From(selectors, t.visits, t.fetchers, f, i, x);
    assert DuringFetch(t.cache, t.fetchers[i], t.visits[i].now);
    EmissionOrigin(selectors, t.visits, i, x, n);
    k :| k <= i && MadeFrom(selectors, x, t.visits[k]) && t.visits[i].now < t.visits[k].now + n;
  }

  /**
   End-to-end age.  Take any run of the target from its start, with responses cached for
   `staleness` and removals at most `lag` late, and any sample in an answer whose series' plan
   is steady, with no resolution above `n`.  One visit of the run scraped that sample.  A request
   that fetched arrived less than `n` after it; one that hit the cache less than `n`, the
   duration of the fetch that built the response, `staleness` and `lag` together after it.
   */
  lemma {:induction false} EndToEndAge(
    staleness: nat, lag: nat, selectors: seq<Selector>, t: Target, r: ReqId, x: Sample, n: nat)
    returns (f: ReqId, k: nat)
    requires Ran(staleness, lag, selectors, t)
    requires r < |t.cache.reqs| && Answer(t.cache, r).Some?
    requires Answer(t.cache, r).value.Scraped? && x in Answer(t.cache, r).value.samples
    requires Steady(Plan(selectors, SeriesOf(x))) && n > 0 && ResolutionsWithin(Plan(selectors, SeriesOf(x)), n)
    ensures f < |t.cache.reqs| && t.cache.reqs[f].key == t.cache.reqs[r].key && t.cache.reqs[f].stage.Fetched?
    ensures Answer(t.cache, r) == Some(t.cache.reqs[f].stage.value)
    ensures t.cache.reqs[f].stage.guard < |t.cache.guards|
    ensures k < |t.visits| && MadeFrom(selectors, x, t.visits[k])
    ensures t.cache.reqs[r].stage.Fetched? ==> t.cache.reqs[r].arrived < t.visits[k].now + n
    ensures
      var duration := t.cache.reqs[f].stage.at - t.cache.guards[t.cache.reqs[f].stage.guard].since;
      t.cache.reqs[r].stage.Hit? ==> t.cache.reqs[r].arrived < t.visits[k].now + n + duration + staleness + lag
  {
    hide Plan, Steady, ResolutionsWithin, MadeFrom, CanRun, AfterRun, PromptRun;
    var steps :|
      && CanRun(staleness, selectors, Start(), steps)
      && PromptRun(staleness, lag, selectors, Start(), steps)
      && AfterRun(staleness, selectors, Start(), steps) == t;
    StartSound(staleness, lag, selectors);
    RunSound(staleness, lag, selectors, Start(), steps);
    f := FetchBehind(staleness, lag, t.cache, r);
    k := VisitBehind(staleness, lag, selectors, t, f, x, n);
  }

  // ---------- the bound is attained ----------

  lemma {:induction false} RunFurther(
    staleness: nat, lag: nat, selectors: seq<Selector>, t: Target, steps: seq<Step>, step: Step)
    requires CanRun(staleness, selectors, t, steps) && PromptRun(staleness, lag, selectors, t, steps)
    requires CanStep(selectors, AfterRun(staleness, selectors, t, steps), step)
    requires
      var last := AfterRun(staleness, selectors, t, steps);
      OnTime(staleness, lag, AfterStep(staleness, selectors, last, step).cache)
    ensures CanRun(staleness, selectors, t, steps + [step]) && PromptRun(staleness, lag, selectors, t, steps + [step])
    ensures AfterRun(staleness, selectors, t, steps + [step])
      == AfterStep(staleness, selectors, AfterRun(staleness, selectors, t, steps), step)
    decreases |steps|
  {
    hide OnTime, CanStep, AfterStep;
    if steps == [] {
      assert steps + [step] == [step] && [step][1..] == [];
    } else {
      RunFurther(staleness, lag, selectors, AfterStep(staleness, selectors, t, steps[0]), steps[1..], step);
      assert (steps + [step])[1..] == steps[1..] + [step];
    }
  }

  lemma {:induction false} Go(
    staleness: nat, lag: nat, selectors: seq<Selector>, t: Target, step: Step) returns (t': Target)
    requires Ran(staleness, lag, selectors, t) && CanStep(selectors, t, step)
    requires OnTime(staleness, lag, AfterStep(staleness, selectors, t, step).cache)
    ensures t' == AfterStep(staleness, selectors, t, step) && Ran(staleness, lag, selectors, t')
  {
    hide CanRun, PromptRun, AfterRun, OnTime, CanStep, AfterStep;
    var steps :|
      && CanRun(staleness, selectors, Start(), steps)
      && PromptRun(staleness, lag, selectors, Start(), steps)
      && AfterRun(staleness, selectors, Start(), steps) == t;
    RunFurther(staleness, lag, selectors, Start(), steps, step);
    t' := AfterStep(staleness, selectors, t, step);
  }

  lemma {:induction false} GoOn(
    staleness: nat, lag: nat, selectors: seq<Selector>, t: Target, a: Action<string, Page>) returns (t': Target)
    requires Ran(staleness, lag, selectors, t) && CanStep(selectors, t, Cache(a))
    requires OnTime(staleness, lag, Next(staleness, t.cache, a))
    ensures t' == t.(cache := Next(staleness, t.cache, a)) && Ran(staleness, lag, selectors, t')
  {
    hide Ran, OnTime, Next;
    t' := Go(staleness, lag, selectors, t, Cache(a));
  }

  lemma {:induction false} StartRan(staleness: nat, lag: nat, selectors: seq<Selector>)
    ensures Ran(staleness, lag, selectors, Start())
  {
    var steps: seq<Step> := [];
    assert CanRun(staleness, selectors, Start(), steps) && PromptRun(staleness, lag, selectors, Start(), steps);
    assert AfterRun(staleness, selectors, Start(), steps) == Start();
  }

  /** A scrape of one sample, whatever comes of it. */
  lemma {:induction false} OneSample(selectors: seq<Selector>, shelf: Shelf, v: Visit)
    requires DrawsFit(Plan(selectors, SeriesOf(v.sample)), v.draws)
    ensures ScrapeDrawsFit(selectors, [v.sample], [v.draws])
    ensures VisitsOf(v.now, [v.sample], [v.draws]) == [v]
    ensures
      var l := FilterScrape(selectors, shelf, v.now, Scrape(map[], [v.sample]), [v.draws]);
      var p := OutcomeOf(selectors, shelf, v);
      l.shelf == Store(shelf, v.now, p) && l.samples == (if Kept(p) then [p.sample] else [])
  {
    hide Plan, Run;
    FilterOneMore(selectors, shelf, map[], v.now, [v.sample], 0, [], v.draws);
    assert [v.sample][..1] == [v.sample] && [] + [v.draws] == [v.draws];
  }

  /** The first visit of a reduced series stores what it emits. */
  lemma {:induction false} FirstVisit(selectors: seq<Selector>, v: Visit, n: nat)
    requires DrawsFit(Plan(selectors, SeriesOf(v.sample)), v.draws) && Reduced(selectors, SeriesOf(v.sample), n)
    ensures
      var p := OutcomeOf(selectors, map[], v);
      && Kept(p) && p.sample == FreshSample(selectors, v) && SeriesOf(p.sample) == SeriesOf(v.sample)
      && Store(map[], v.now, p) == map[SeriesOf(v.sample) := Entry(p.sample, v.now)]
  {
    var plan := Plan(selectors, SeriesOf(v.sample));
    hide Plan, Run, Dropped, Uniform;
    VisitEntry(selectors, map[], v, n);
    VerdictByPlan(map[], v.now, plan, v.draws, v.sample);
    RunKeepsSeries(map[], v.now, plan, v.draws, Begin(v.sample));
  }

  /** A later visit within the resolution emits the entry and leaves it. */
  lemma {:induction false} LaterVisit(selectors: seq<Selector>, v: Visit, entry: Entry, n: nat)
    requires DrawsFit(Plan(selectors, SeriesOf(v.sample)), v.draws) && Reduced(selectors, SeriesOf(v.sample), n)
    requires QuietAfterReduce(Plan(selectors, SeriesOf(v.sample)))
    requires SeriesOf(entry.sample) == SeriesOf(v.sample) && n <= v.now < entry.savedAt + n
    ensures
      var shelf: Shelf := map[SeriesOf(v.sample) := entry];
      var p := OutcomeOf(selectors, shelf, v);
      Kept(p) && p.sample == entry.sample && Store(shelf, v.now, p) == shelf
  {
    var s := SeriesOf(v.sample);
    var plan := Plan(selectors, s);
    var shelf: Shelf := map[s := entry];
    hide Plan, Run, Dropped, Uniform, QuietAfterReduce;
    FindExactly(shelf, s, v.now, n);
    VisitEntry(selectors, shelf, v, n);
    VerdictByPlan(shelf, v.now, plan, v.draws, v.sample);
    HitServesEntry(shelf, v.now, plan, v.draws, v.sample, n);
  }

  /** A fetch that is dropped after its pass leaves its sample in the sample cache. */
  lemma {:induction false} DroppedFetch(
    staleness: nat, lag: nat, selectors: seq<Selector>, v: Visit, n: nat) returns (t: Target)
    requires DrawsFit(Plan(selectors, SeriesOf(v.sample)), v.draws) && Reduced(selectors, SeriesOf(v.sample), n)
    requires v.now == n
    ensures Ran(staleness, lag, selectors, t)
    ensures
      var x := FreshSample(selectors, v);
      SeriesOf(x) == SeriesOf(v.sample) && t == Target(
        State(n, 1, [Request("a", 0, n, Cancelled)], [Guard(0, n, false, None)], [], map["a" := 0], [], None),
        map[SeriesOf(v.sample) := Entry(x, n)], map[0 := [x]], [v], [0])
  {
    hide Ran, Plan, Run, Reduced, Uniform, FilterSamples;
    StartRan(staleness, lag, selectors);
    t := GoOn(staleness, lag, selectors, Start(), Tick(n));
    t := GoOn(staleness, lag, selectors, t, Arrive("a"));
    t := GoOn(staleness, lag, selectors, t, Grant);
    t := GoOn(staleness, lag, selectors, t, LookUp(0));
    OneSample(selectors, map[], v);
    FirstVisit(selectors, v, n);
    t := Go(staleness, lag, selectors, t, Filter(0, n, Scrape(map[], [v.sample]), [v.draws]));
    t := GoOn(staleness, lag, selectors, t, Cancel(0));
  }

  /** Just before the entry is stale, a second fetch has begun. */
  lemma {:induction false} SecondFetch(
    staleness: nat, lag: nat, selectors: seq<Selector>, v: Visit, n: nat) returns (t: Target)
    requires DrawsFit(Plan(selectors, SeriesOf(v.sample)), v.draws) && Reduced(selectors, SeriesOf(v.sample), n)
    requires n > 0 && v.now == n
    ensures Ran(staleness, lag, selectors, t)
    ensures
      var x := FreshSample(selectors, v);
      SeriesOf(x) == SeriesOf(v.sample)
      && t == Target(SecondFetching(n), map[SeriesOf(v.sample) := Entry(x, n)], map[0 := [x]], [v], [0])
  {
    hide Ran, Plan, Reduced, FreshSample;
    t := DroppedFetch(staleness, lag, selectors, v, n);
    t := GoOn(staleness, lag, selectors, t, Tick(n - 1));
    t := GoOn(staleness, lag, selectors, t, Arrive("b"));
    t := GoOn(staleness, lag, selectors, t, Grant);
    t := GoOn(staleness, lag, selectors, t, LookUp(1));
  }

  /** It gets that sample, and takes its time. */
  lemma {:induction false} SlowFetch(
    staleness: nat, lag: nat, duration: nat, selectors: seq<Selector>, v0: Visit, v1: Visit, n: nat) returns (t: Target)
    requires SeriesOf(v0.sample) == SeriesOf(v1.sample)
    requires DrawsFit(Plan(selectors, SeriesOf(v0.sample)), v0.draws)
    requires DrawsFit(Plan(selectors, SeriesOf(v0.sample)), v1.draws)
    requires Reduced(selectors, SeriesOf(v0.sample), n) && QuietAfterReduce(Plan(selectors, SeriesOf(v0.sample)))
    requires n > 0 && v0.now == n && v1.now == n + n - 1
    ensures Ran(staleness, lag, selectors, t)
    ensures
      var x := FreshSample(selectors, v0);
      && t.cache == SlowlyFetched(n, v1.now, duration, x)
      && t.visits == [v0, v1]
      && 1 in t.filtered && t.filtered[1] == [x]
  {
    hide Ran, Plan, Reduced, QuietAfterReduce, FilterSamples, FreshSample;
    var x := FreshSample(selectors, v0);
    t := SecondFetch(staleness, lag, selectors, v0, n);
    t := SecondPass(staleness, lag, selectors, t, v1, x, n);
    t := SecondEnds(staleness, lag, duration, selectors, t, n, x);
  }

  lemma {:induction false} SecondEnds(
    staleness: nat, lag: nat, duration: nat, selectors: seq<Selector>, t: Target, n: nat, x: Sample)
    returns (t': Target)
    requires Ran(staleness, lag, selectors, t) && n > 0 && 1 in t.filtered && t.filtered[1] == [x]
    requires t.cache == SecondFetching(n)
    ensures Ran(staleness, lag, selectors, t')
    ensures t' == t.(cache := SlowlyFetched(n, n + n - 1, duration, x))
  {
    hide Ran;
    t' := GoOn(staleness, lag, selectors, t, Tick(duration));
    t' := GoOn(staleness, lag, selectors, t', Complete(1, Scraped([x]), true));
  }

  /** The deadline cache when the first fetch was dropped and a second one begins. */
  function SecondFetching(n: nat): System
    requires n > 0
  {
    State(n + n - 1, 2, [Request("a", 0, n, Cancelled), Request("b", 1, n + n - 1, Fetching(1))],
          [Guard(0, n, false, None), Guard(1, n + n - 1, true, None)], [], map["a" := 0, "b" := 1], [], None)
  }

  lemma {:induction false} SecondPass(
    staleness: nat, lag: nat, selectors: seq<Selector>, t: Target, v: Visit, x: Sample, n: nat) returns (t': Target)
    requires Ran(staleness, lag, selectors, t) && OnTime(staleness, lag, t.cache)
    requires DrawsFit(Plan(selectors, SeriesOf(v.sample)), v.draws)
    requires Reduced(selectors, SeriesOf(v.sample), n) && QuietAfterReduce(Plan(selectors, SeriesOf(v.sample)))
    requires SeriesOf(x) == SeriesOf(v.sample) && t.shelf == map[SeriesOf(x) := Entry(x, n)] && n <= v.now < n + n
    requires |t.cache.reqs| == 2 && t.cache.reqs[1].stage == Fetching(1) && 1 !in t.filtered
    requires |t.cache.guards| == 2 && t.cache.guards[1].since <= v.now <= t.cache.now
    ensures Ran(staleness, lag, selectors, t')
    ensures t'.cache == t.cache && t'.visits == t.visits + [v] && t'.filtered == t.filtered[1 := [x]]
  {
    hide Ran, Plan, Reduced, QuietAfterReduce, FilterSamples, OnTime;
    OneSample(selectors, t.shelf, v);
    LaterVisit(selectors, v, Entry(x, n), n);
    t' := Go(staleness, lag, selectors, t, Filter(1, v.now, Scrape(map[], [v.sample]), [v.draws]));
  }

  /** The deadline cache after the first fetch was dropped and the second one, begun at `since`, completed. */
  function SlowlyFetched(n: nat, since: nat, duration: nat, x: Sample): System {
    State(since + duration, 2,
          [Request("a", 0, n, Cancelled), Request("b", 1, since, Fetched(1, Scraped([x]), true, since + duration, 0))],
          [Guard(0, n, false, None), Guard(1, since, false, Some(Scraped([x])))],
          [Timer("b", 1, Spawned)], map["a" := 0, "b" := 1], [], None)
  }

  /** A request at the last instant before the removal lines up is served that page. */
  lemma {:induction false} LastHit(
    staleness: nat, lag: nat, duration: nat, selectors: seq<Selector>, t: Target, n: nat, since: nat, x: Sample)
    returns (t': Target)
    requires Ran(staleness, lag, selectors, t) && t.cache == SlowlyFetched(n, since, duration, x)
    ensures Ran(staleness, lag, selectors, t') && t'.visits == t.visits
    ensures |t'.cache.reqs| == 3 && t'.cache.reqs[1] == t.cache.reqs[1] && t'.cache.guards == t.cache.guards
    ensures t'.cache.reqs[2] == Request("b", 2, since + duration + staleness + lag, Hit(1, Scraped([x])))
  {
    hide Ran;
    t' := Overdue(staleness, lag, duration, selectors, t, n, since, x);
    t' := GoOn(staleness, lag, selectors, t', Arrive("b"));
    t' := GoOn(staleness, lag, selectors, t', Grant);
    t' := GoOn(staleness, lag, selectors, t', LookUp(2));
    t' := GoOn(staleness, lag, selectors, t', ReadEntry(2));
  }

  /** The removal has slept, and overslept by `lag`. */
  lemma {:induction false} Overdue(
    staleness: nat, lag: nat, duration: nat, selectors: seq<Selector>, t: Target, n: nat, since: nat, x: Sample)
    returns (t': Target)
    requires Ran(staleness, lag, selectors, t) && t.cache == SlowlyFetched(n, since, duration, x)
    ensures Ran(staleness, lag, selectors, t')
    ensures
      var done := since + duration;
      t' == t.(cache := t.cache.(
        now := done + staleness + lag, timers := [Timer("b", 1, Sleeping(done + staleness))]))
  {
    hide Ran;
    t' := GoOn(staleness, lag, selectors, t, StartSleep(0));
    t' := GoOn(staleness, lag, selectors, t', Tick(staleness + lag));
  }

  /**
   For every staleness, lag, fetch duration and resolution, some run of a quietly reduced series
   answers a hit with a sample exactly one tick short of the bound.
   */
  lemma {:induction false} AgeAttained(
    staleness: nat, lag: nat, duration: nat, selectors: seq<Selector>, s: Series, draws: seq<real>, n: nat)
    returns (t: Target, x: Sample)
    requires DrawsFit(Plan(selectors, s), draws) && Reduced(selectors, s, n) && n > 0
    requires QuietAfterReduce(Plan(selectors, s))
    ensures Ran(staleness, lag, selectors, t) && SeriesOf(x) == s
    ensures |t.cache.reqs| == 3 && t.cache.reqs[2].stage.Hit? && Answer(t.cache, 2) == Some(Scraped([x]))
    ensures t.cache.reqs[1].stage.Fetched?
    ensures t.cache.reqs[1].stage.guard == t.cache.reqs[2].stage.guard < |t.cache.guards|
    ensures t.cache.reqs[1].stage.at - t.cache.guards[t.cache.reqs[1].stage.guard].since == duration
    ensures |t.visits| == 2 && MadeFrom(selectors, x, t.visits[0]) && !MadeFrom(selectors, x, t.visits[1])
    ensures t.cache.reqs[2].arrived + 1 == t.visits[0].now + n + duration + staleness + lag
  {
    hide Ran, Plan, Run, Reduced, QuietAfterReduce, FreshSample, Exact;
    var v0 := Visit(n, Sample(s.metric, Untyped(0.0), s.labels, 0), draws);
    var v1 := Visit(n + n - 1, Sample(s.metric, Untyped(0.0), s.labels, 1), draws);
    x := FreshSample(selectors, v0);
    MadeFromOwn(selectors, v0);
    t := SlowFetch(staleness, lag, duration, selectors, v0, v1, n);
    t := LastHit(staleness, lag, duration, selectors, t, n, v1.now, x);
  }
}
