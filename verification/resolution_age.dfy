/**
 The promise of a time resolution, over whole runs and for every plan: what is served of a
 series was scraped less than the resolution ago.  Exactly which plans keep it.
 */
module ResolutionAge {
  import opened Samples
  import opened SampleCache
  import opened Filters
  import opened FilterLaws
  import opened FilterRuns

  /** What the cache holds comes out of the plan as it is: no noise can get on top of it. */
  ghost predicate Exact(plan: seq<FilterAction>) {
    NoiseFirst(plan) || (ResolutionsAgree(plan) && QuietAfterReduce(plan))
  }

  /**
   `x` was scraped by visit `v`, with some noise added at most; if the plan puts no noise on
   cached samples, it is exactly what the visit made of what it scraped.
   */
  ghost predicate MadeFrom(selectors: seq<Selector>, x: Sample, v: Visit) {
    var plan := Plan(selectors, SeriesOf(v.sample));
    && SeriesOf(v.sample) == SeriesOf(x)
    && DrawsFit(plan, v.draws)
    && StemsFrom(x, v.sample)
    && (Exact(plan) ==> x == FreshSample(selectors, v))
  }

  /** In every run, whatever comes out of the series was scraped by a visit less than `n` before. */
  ghost predicate AgeKept(selectors: seq<Selector>, s: Series, n: nat) {
    forall visits: seq<Visit>, i: nat, x | Emits(selectors, visits, i, x) && SeriesOf(x) == s ::
      ScrapedWithin(selectors, visits, i, x, n)
  }

  ghost predicate ScrapedWithin(selectors: seq<Selector>, visits: seq<Visit>, i: nat, x: Sample, n: nat)
    requires i < |visits|
  {
    exists k: nat :: k <= i && MadeFrom(selectors, x, visits[k]) && visits[i].now < visits[k].now + n
  }

  /** All resolutions are equal, or none exceeds the clock's grain. */
  ghost predicate Steady(plan: seq<FilterAction>) {
    || ResolutionsAgree(plan)
    || forall i | 0 <= i < |plan| && plan[i].ReduceTimeResolution? :: plan[i].resolution <= 1
  }

  ghost predicate ResolutionsWithin(plan: seq<FilterAction>, n: nat) {
    forall i | 0 <= i < |plan| && plan[i].ReduceTimeResolution? :: plan[i].resolution <= n
  }

  // ---------- steady plans keep the promise ----------

  lemma {:induction false} MadeFromOwn(selectors: seq<Selector>, v: Visit)
    requires DrawsFit(Plan(selectors, SeriesOf(v.sample)), v.draws)
    ensures MadeFrom(selectors, FreshSample(selectors, v), v)
  {
    hide Plan;
    FreshStems(v.now, Plan(selectors, SeriesOf(v.sample)), v.draws, v.sample);
    RunKeepsSeries(map[], v.now, Plan(selectors, SeriesOf(v.sample)), v.draws, Begin(v.sample));
  }

  lemma {:induction false} FreshStems(now: nat, plan: seq<FilterAction>, draws: seq<real>, sample: Sample)
    requires |plan| == |draws| && forall i | 0 <= i < |plan| :: Usable(plan[i])
    ensures StemsFrom(Run(map[], now, plan, draws, Begin(sample)).sample, sample)
    decreases |plan|
  {
    if plan == [] {
      StemsFromItself(sample);
    } else {
      var n := |plan| - 1;
      FreshStems(now, plan[..n], draws[..n], sample);
      var before := Run(map[], now, plan[..n], draws[..n], Begin(sample)).sample;
      var after := Run(map[], now, plan, draws, Begin(sample)).sample;
      if plan[n].AddAbsoluteNoise? {
        assert after == before.(value := Perturb(before.value, Quantized(draws[n], plan[n].quantum)));
        PerturbShifts(before.value, Quantized(draws[n], plan[n].quantum), after.value);
        StemsTransitive(after, before, sample);
      }
    }
  }

  /** A miss and a hit in one visit can only meet at the very instant of the entry's stamp, or before. */
  lemma {:induction false} MixedVisit(shelf: Shelf, s: Series, now: nat, plan: seq<FilterAction>)
    requires Steady(plan) && AnyHit(shelf, s, now, plan) && AnyMiss(shelf, s, now, plan)
    ensures s in shelf && now <= shelf[s].savedAt
  {
    var i :| 0 <= i < |plan| && plan[i].ReduceTimeResolution? && Find(shelf, s, now, plan[i].resolution).Some?;
    var j :| 0 <= j < |plan| && plan[j].ReduceTimeResolution? && Find(shelf, s, now, plan[j].resolution).None?;
    FindExactly(shelf, s, now, plan[i].resolution);
    assert plan[i].resolution == plan[j].resolution || plan[i].resolution <= 1;
  }

  lemma {:induction false} MadeFromHit(
    selectors: seq<Selector>, x: Sample, entry: Sample, v: Visit, plan: seq<FilterAction>)
    requires MadeFrom(selectors, entry, v) && SeriesOf(x) == SeriesOf(entry)
    requires plan == Plan(selectors, SeriesOf(entry))
    requires StemsFrom(x, entry) && (Exact(plan) ==> x == entry)
    ensures MadeFrom(selectors, x, v)
  {
    hide Plan, FreshSample, Exact;
    StemsTransitive(x, entry, v.sample);
  }

  /** What a visit puts out and may store, given the visit behind the entry it found. */
  lemma {:induction false} VisitOrigin(
    selectors: seq<Selector>, shelf: Shelf, v: Visit, origin: Visit)
    returns (from: Visit)
    requires WellFiled(shelf) && DrawsFit(Plan(selectors, SeriesOf(v.sample)), v.draws)
    requires Steady(Plan(selectors, SeriesOf(v.sample)))
    requires
      var s := SeriesOf(v.sample);
      s in shelf ==> MadeFrom(selectors, shelf[s].sample, origin) && shelf[s].savedAt <= origin.now
    ensures from == v || (from == origin && SeriesOf(v.sample) in shelf)
    ensures MadeFrom(selectors, OutcomeOf(selectors, shelf, v).sample, from)
    ensures OutcomeOf(selectors, shelf, v).mustCache ==> v.now <= from.now
    ensures forall n: nat | n > 0 && ResolutionsWithin(Plan(selectors, SeriesOf(v.sample)), n) :: v.now < from.now + n
  {
    hide Plan, Run;
    var s := SeriesOf(v.sample);
    var plan := Plan(selectors, s);
    RunOrigin(shelf, v.now, plan, v.draws, v.sample);
    RunKeepsSeries(shelf, v.now, plan, v.draws, Begin(v.sample));
    if AnyHit(shelf, s, v.now, plan) {
      from := origin;
      if Exact(plan) { ExactHit(shelf, v.now, plan, v.draws, v.sample); }
      MadeFromHit(selectors, OutcomeOf(selectors, shelf, v).sample, shelf[s].sample, origin, plan);
      if AnyMiss(shelf, s, v.now, plan) { MixedVisit(shelf, s, v.now, plan); }
      FoundAge(shelf, s, v.now, plan);
    } else {
      from := v;
      MadeFromOwn(selectors, v);
    }
  }

  lemma {:induction false} ExactHit(shelf: Shelf, now: nat, plan: seq<FilterAction>, draws: seq<real>, sample: Sample)
    requires WellFiled(shelf) && |plan| == |draws| && forall i | 0 <= i < |plan| :: Usable(plan[i])
    requires Exact(plan) && AnyHit(shelf, SeriesOf(sample), now, plan)
    ensures SeriesOf(sample) in shelf
    ensures Run(shelf, now, plan, draws, Begin(sample)).sample == shelf[SeriesOf(sample)].sample
  {
    RunOrigin(shelf, now, plan, draws, sample);
    if !NoiseFirst(plan) {
      var i :| 0 <= i < |plan| && plan[i].ReduceTimeResolution?
        && Find(shelf, SeriesOf(sample), now, plan[i].resolution).Some?;
      HitServesEntry(shelf, now, plan, draws, sample, plan[i].resolution);
    }
  }

  lemma {:induction false} FoundAge(shelf: Shelf, s: Series, now: nat, plan: seq<FilterAction>)
    requires AnyHit(shelf, s, now, plan)
    ensures s in shelf
    ensures forall n: nat | ResolutionsWithin(plan, n) :: now < shelf[s].savedAt + n
  {
    var i :| 0 <= i < |plan| && plan[i].ReduceTimeResolution? && Find(shelf, s, now, plan[i].resolution).Some?;
    FindExactly(shelf, s, now, plan[i].resolution);
  }

  /** The visit behind the entry of a series: its sample's origin, and not older than its stamp. */
  lemma {:induction false} EntryOrigin(selectors: seq<Selector>, visits: seq<Visit>, s: Series) returns (k: nat)
    requires VisitsFit(selectors, visits) && s in ShelfAfter(selectors, visits) && Steady(Plan(selectors, s))
    ensures k < |visits| && MadeFrom(selectors, ShelfAfter(selectors, visits)[s].sample, visits[k])
    ensures ShelfAfter(selectors, visits)[s].savedAt <= visits[k].now
    decreases |visits|, 0
  {
    hide Plan, Run, Steady;
    var n := |visits| - 1;
    var v := visits[n];
    assert DrawsFit(Plan(selectors, SeriesOf(v.sample)), v.draws);
    RunShelfFiled(selectors, visits[..n]);
    var before := ShelfAfter(selectors, visits[..n]);
    if SeriesOf(v.sample) != s {
      OtherSeriesUntouched(selectors, before, v, s);
      k := EntryOrigin(selectors, visits[..n], s);
    } else {
      k := VisitOriginAt(selectors, visits, n);
      RunKeepsSeries(before, v.now, Plan(selectors, s), v.draws, Begin(v.sample));
      var p := OutcomeOf(selectors, before, v);
      if !(Kept(p) && p.mustCache) {
        k := EntryOrigin(selectors, visits[..n], s);
      }
    }
  }

  /** The visit behind what visit `i` of a run puts out. */
  lemma {:induction false} VisitOriginAt(selectors: seq<Selector>, visits: seq<Visit>, i: nat) returns (k: nat)
    requires VisitsFit(selectors, visits) && i < |visits| && Steady(Plan(selectors, SeriesOf(visits[i].sample)))
    ensures k <= i && MadeFrom(selectors, OutcomeAt(selectors, visits, i).sample, visits[k])
    ensures OutcomeAt(selectors, visits, i).mustCache ==> visits[i].now <= visits[k].now
    ensures forall n: nat | n > 0 && ResolutionsWithin(Plan(selectors, SeriesOf(visits[i].sample)), n) ::
      visits[i].now < visits[k].now + n
    decreases i, 1
  {
    hide Plan, Run, Steady, ResolutionsWithin;
    var v := visits[i];
    var shelf := ShelfAfter(selectors, visits[..i]);
    assert DrawsFit(Plan(selectors, SeriesOf(v.sample)), v.draws);
    RunShelfFiled(selectors, visits[..i]);
    k := i;
    if SeriesOf(v.sample) in shelf {
      k := EntryOrigin(selectors, visits[..i], SeriesOf(v.sample));
    }
    var from := VisitOrigin(selectors, shelf, v, visits[k]);
    if from == v { k := i; }
  }

  // ---------- all others break it, on some run, by as much as one likes ----------

  /** A run of one series whose visits are `step` apart; only the first has timestamp 0. */
  function Steps(s: Series, draws: seq<real>, start: nat, step: nat, m: nat): (visits: seq<Visit>)
    requires step > 0
    ensures |visits| == m + 1
    ensures visits[0].now == start && visits[m].now >= start + m
    ensures forall i | 0 <= i <= m :: visits[i].draws == draws && SeriesOf(visits[i].sample) == s
    ensures forall i | 0 <= i <= m :: visits[i].sample.timestamp == if i == 0 then 0 else 1
  {
    if m == 0 then [Visit(start, Sample(s.metric, Untyped(0.0), s.labels, 0), draws)]
    else
      var before := Steps(s, draws, start, step, m - 1);
      before + [Visit(before[m - 1].now + step, Sample(s.metric, Untyped(0.0), s.labels, 1), draws)]
  }

  lemma {:induction false} StepsFit(
    selectors: seq<Selector>, s: Series, draws: seq<real>, start: nat, step: nat, m: nat)
    requires step > 0 && DrawsFit(Plan(selectors, s), draws)
    ensures VisitsFit(selectors, Steps(s, draws, start, step, m))
  {
  }

  /** The run ends with an emission, and an entry, that still has timestamp 0. */
  ghost predicate StillFirst(selectors: seq<Selector>, s: Series, visits: seq<Visit>) {
    && visits != [] && VisitsFit(selectors, visits)
    && (var p := OutcomeAt(selectors, visits, |visits| - 1);
        && Kept(p) && SeriesOf(p.sample) == s && p.sample.timestamp == 0
        && ShelfAfter(selectors, visits) == map[s := Entry(p.sample, visits[|visits| - 1].now)])
  }

  lemma {:induction false} StillFirstAfter(
    selectors: seq<Selector>, s: Series, visits: seq<Visit>, v: Visit, low: nat, high: nat)
    requires StillFirst(selectors, s, visits) && VisitsFit(selectors, visits + [v]) && SeriesOf(v.sample) == s
    requires !Dropped(Plan(selectors, s))
    requires ReduceTimeResolution(low) in Plan(selectors, s) && ReduceTimeResolution(high) in Plan(selectors, s)
    requires visits[|visits| - 1].now + low <= v.now < visits[|visits| - 1].now + high && high <= v.now
    ensures StillFirst(selectors, s, visits + [v])
  {
    hide Plan, Run, Dropped;
    ShelfAfterMore(selectors, visits, v);
    StoredAgain(selectors, ShelfAfter(selectors, visits), v, low, high);
    assert (visits + [v])[..|visits|] == visits;
  }

  /** With a resolution that misses and one that hits at every step, the first sample is served for ever. */
  lemma {:induction false} ServedForEver(
    selectors: seq<Selector>, s: Series, draws: seq<real>, low: nat, high: nat, step: nat, m: nat)
    requires DrawsFit(Plan(selectors, s), draws) && !Dropped(Plan(selectors, s))
    requires ReduceTimeResolution(low) in Plan(selectors, s) && ReduceTimeResolution(high) in Plan(selectors, s)
    requires 0 < step && low <= step < high
    ensures StillFirst(selectors, s, Steps(s, draws, high, step, m))
  {
    hide Plan, Run, Dropped;
    var visits := Steps(s, draws, high, step, m);
    StepsFit(selectors, s, draws, high, step, m);
    if m == 0 {
      FirstStored(selectors, visits[0], low);
      assert visits[..0] == [];
    } else {
      hide StillFirst, VisitsFit;
      ServedForEver(selectors, s, draws, low, high, step, m - 1);
      StillFirstAfter(selectors, s, Steps(s, draws, high, step, m - 1), visits[m], low, high);
    }
  }

  lemma {:induction false} FirstStored(selectors: seq<Selector>, v: Visit, low: nat)
    requires DrawsFit(Plan(selectors, SeriesOf(v.sample)), v.draws)
    requires !Dropped(Plan(selectors, SeriesOf(v.sample)))
      && ReduceTimeResolution(low) in Plan(selectors, SeriesOf(v.sample))
    ensures
      var p := OutcomeOf(selectors, map[], v);
      Kept(p) && p.mustCache && SeriesOf(p.sample) == SeriesOf(v.sample) && p.sample.timestamp == v.sample.timestamp
  {
    hide Plan, Run, Dropped;
    var plan := Plan(selectors, SeriesOf(v.sample));
    RunOrigin(map[], v.now, plan, v.draws, v.sample);
    RunKeepsSeries(map[], v.now, plan, v.draws, Begin(v.sample));
    VerdictByPlan(map[], v.now, plan, v.draws, v.sample);
    NothingFound(SeriesOf(v.sample), v.now, plan, low);
    TimestampWithoutShelf(v.now, plan, v.draws, v.sample);
  }

  lemma {:induction false} StoredAgain(selectors: seq<Selector>, shelf: Shelf, v: Visit, low: nat, high: nat)
    requires DrawsFit(Plan(selectors, SeriesOf(v.sample)), v.draws)
    requires !Dropped(Plan(selectors, SeriesOf(v.sample)))
    requires ReduceTimeResolution(low) in Plan(selectors, SeriesOf(v.sample))
    requires ReduceTimeResolution(high) in Plan(selectors, SeriesOf(v.sample))
    requires WellFiled(shelf) && SeriesOf(v.sample) in shelf && high <= v.now
    requires shelf[SeriesOf(v.sample)].savedAt + low <= v.now < shelf[SeriesOf(v.sample)].savedAt + high
    ensures
      var p := OutcomeOf(selectors, shelf, v);
      && Kept(p) && p.mustCache && SeriesOf(p.sample) == SeriesOf(v.sample)
      && p.sample.timestamp == shelf[SeriesOf(v.sample)].sample.timestamp
  {
    hide Plan, Run, Dropped;
    var plan := Plan(selectors, SeriesOf(v.sample));
    RunOrigin(shelf, v.now, plan, v.draws, v.sample);
    RunKeepsSeries(shelf, v.now, plan, v.draws, Begin(v.sample));
    VerdictByPlan(shelf, v.now, plan, v.draws, v.sample);
    MissAndHit(shelf, SeriesOf(v.sample), v.now, plan, low, high);
  }

  lemma {:induction false} NothingFound(s: Series, now: nat, plan: seq<FilterAction>, low: nat)
    requires ReduceTimeResolution(low) in plan
    ensures AnyMiss(map[], s, now, plan) && !AnyHit(map[], s, now, plan)
  {
    var i :| 0 <= i < |plan| && plan[i] == ReduceTimeResolution(low);
    assert Find(map[], s, now, plan[i].resolution).None?;
  }

  lemma {:induction false} MissAndHit(shelf: Shelf, s: Series, now: nat, plan: seq<FilterAction>, low: nat, high: nat)
    requires ReduceTimeResolution(low) in plan && ReduceTimeResolution(high) in plan
    requires s in shelf && high <= now && shelf[s].savedAt + low <= now < shelf[s].savedAt + high
    ensures AnyMiss(shelf, s, now, plan) && AnyHit(shelf, s, now, plan)
  {
    var i :| 0 <= i < |plan| && plan[i] == ReduceTimeResolution(low);
    var j :| 0 <= j < |plan| && plan[j] == ReduceTimeResolution(high);
    assert Find(shelf, s, now, plan[i].resolution).None?;
    assert Find(shelf, s, now, plan[j].resolution).Some?;
  }

  lemma {:induction false} AgeBroken(selectors: seq<Selector>, s: Series, low: nat, high: nat, n: nat)
    requires forall i | 0 <= i < |Plan(selectors, s)| :: Usable(Plan(selectors, s)[i])
    requires !Dropped(Plan(selectors, s)) && low < high && high >= 2
    requires ReduceTimeResolution(low) in Plan(selectors, s) && ReduceTimeResolution(high) in Plan(selectors, s)
    ensures !AgeKept(selectors, s, n)
  {
    hide Plan, Run, Dropped;
    var draws := seq(|Plan(selectors, s)|, i => 0.0);
    var step := if low > 0 then low else 1;
    var visits := Steps(s, draws, high, step, n);
    ServedForEver(selectors, s, draws, low, high, step, n);
    var x := OutcomeAt(selectors, visits, n).sample;
    assert Emits(selectors, visits, n, x);
    forall k: nat | k <= n && MadeFrom(selectors, x, visits[k]) ensures visits[n].now >= visits[k].now + n {
      assert visits[k].sample.timestamp == x.timestamp;
    }
  }

  /**
   The age promise, exactly.  Take any series, and any bound `n` not below its resolutions: in
   every run everything served of the series was scraped less than `n` before, if and only if
   the plan drops the series, or its resolutions are all equal, or none of them exceeds one
   tick.  For every other plan the age has no bound at all.
   */
  lemma {:induction false} AgeKeptExactly(selectors: seq<Selector>, s: Series, n: nat)
    requires forall i | 0 <= i < |Plan(selectors, s)| :: Usable(Plan(selectors, s)[i])
    requires n > 0 && ResolutionsWithin(Plan(selectors, s), n)
    ensures AgeKept(selectors, s, n) <==> Dropped(Plan(selectors, s)) || Steady(Plan(selectors, s))
  {
    hide Plan, Run, Dropped;
    var plan := Plan(selectors, s);
    if Dropped(plan) || Steady(plan) {
      forall visits: seq<Visit>, i: nat, x | Emits(selectors, visits, i, x) && SeriesOf(x) == s
        ensures ScrapedWithin(selectors, visits, i, x, n)
      {
        EmissionOrigin(selectors, visits, i, x, n);
      }
    } else {
      var low, high := Unsteady(plan);
      AgeBroken(selectors, s, low, high, n);
    }
  }

  lemma {:induction false} EmissionOrigin(selectors: seq<Selector>, visits: seq<Visit>, i: nat, x: Sample, n: nat)
    requires Emits(selectors, visits, i, x) && n > 0 && ResolutionsWithin(Plan(selectors, SeriesOf(x)), n)
    requires Dropped(Plan(selectors, SeriesOf(x))) || Steady(Plan(selectors, SeriesOf(x)))
    ensures ScrapedWithin(selectors, visits, i, x, n)
  {
    hide Plan, Run, Dropped, Steady;
    var v := visits[i];
    var plan := Plan(selectors, SeriesOf(v.sample));
    var shelf := ShelfAfter(selectors, visits[..i]);
    assert DrawsFit(plan, v.draws);
    RunShelfFiled(selectors, visits[..i]);
    RunKeepsSeries(shelf, v.now, plan, v.draws, Begin(v.sample));
    VerdictByPlan(shelf, v.now, plan, v.draws, v.sample);
    var k := VisitOriginAt(selectors, visits, i);
  }

  /** Two different resolutions, the larger above one tick. */
  lemma {:induction false} Unsteady(plan: seq<FilterAction>) returns (low: nat, high: nat)
    requires !Steady(plan)
    ensures low < high && high >= 2 && ReduceTimeResolution(low) in plan && ReduceTimeResolution(high) in plan
  {
    var i, j :| 0 <= i < |plan| && 0 <= j < |plan| && plan[i].ReduceTimeResolution? && plan[j].ReduceTimeResolution?
      && plan[i].resolution < plan[j].resolution;
    var k :| 0 <= k < |plan| && plan[k].ReduceTimeResolution? && plan[k].resolution > 1;
    low := plan[i].resolution;
    high := if plan[j].resolution > 1 then plan[j].resolution else plan[k].resolution;
    assert plan[i] == ReduceTimeResolution(low);
    assert plan[if plan[j].resolution > 1 then j else k] == ReduceTimeResolution(high);
  }
}
