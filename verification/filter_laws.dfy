/** What one pass of the filters decides and stores, whatever the cache, the clock and the noise. */
module FilterLaws {
  import opened Samples
  import opened SampleCache
  import opened Filters

  // ---------- keep or drop ----------

  /** The last verdict in the plan is a drop. */
  ghost predicate Dropped(plan: seq<FilterAction>) {
    exists i | 0 <= i < |plan| :: plan[i].Drop? && forall j | i < j < |plan| :: !plan[j].Keep? && !plan[j].Drop?
  }

  lemma {:induction false} DroppedLast(plan: seq<FilterAction>)
    requires plan != []
    ensures
      var n := |plan| - 1;
      Dropped(plan) <==> plan[n].Drop? || (!plan[n].Keep? && Dropped(plan[..n]))
  {
    var n := |plan| - 1;
    var front := plan[..n];
    if plan[n].Drop? {
      assert Dropped(plan);
    }
    if i :| 0 <= i < |front| && front[i].Drop? && forall j | i < j < |front| :: !front[j].Keep? && !front[j].Drop? {
      if !plan[n].Drop? && !plan[n].Keep? {
        assert forall j | i < j < n :: plan[j] == front[j];
        assert plan[i].Drop?;
        assert Dropped(plan);
      }
    }
    if i :| 0 <= i < |plan| && plan[i].Drop? && forall j | i < j < |plan| :: !plan[j].Keep? && !plan[j].Drop? {
      if i < n {
        assert front[i].Drop?;
        assert Dropped(front);
      }
    }
  }

  lemma {:induction false} VerdictByPlan(
    shelf: Shelf, now: nat, plan: seq<FilterAction>, draws: seq<real>, sample: Sample)
    requires |plan| == |draws| && forall i | 0 <= i < |plan| :: Usable(plan[i])
    ensures Kept(Run(shelf, now, plan, draws, Begin(sample))) <==> !Dropped(plan)
    decreases |plan|
  {
    if plan != [] {
      var n := |plan| - 1;
      VerdictByPlan(shelf, now, plan[..n], draws[..n], sample);
      DroppedLast(plan);
    }
  }

  function AllSeries(samples: seq<Sample>): seq<Series> {
    seq(|samples|, i requires 0 <= i < |samples| => SeriesOf(samples[i]))
  }

  /** The series the plans let through, in the order of the samples. */
  ghost function KeptSeries(selectors: seq<Selector>, samples: seq<Sample>): seq<Series>
    decreases |samples|
  {
    if samples == [] then []
    else
      var n := |samples| - 1;
      KeptSeries(selectors, samples[..n])
      + (if Dropped(Plan(selectors, SeriesOf(samples[n]))) then [] else [SeriesOf(samples[n])])
  }

  /**
   Which samples come out depends on their metrics and labels alone: the output holds, in
   input order and with unchanged metric and labels, exactly the samples whose last matching
   keep or drop is not a drop, whatever was cached, whatever the time and the noise.
   */
  lemma {:induction false} OutputIsKeptSeries(
    selectors: seq<Selector>, shelf: Shelf, docs: map<string, string>, now: nat, samples: seq<Sample>,
    draws: seq<seq<real>>)
    requires WellFiled(shelf) && ScrapeDrawsFit(selectors, samples, draws)
    ensures AllSeries(FilterSamples(selectors, shelf, docs, now, samples, draws).samples)
      == KeptSeries(selectors, samples)
    decreases |samples|
  {
    if samples != [] {
      var n := |samples| - 1;
      OutputIsKeptSeries(selectors, shelf, docs, now, samples[..n], draws[..n]);
      FilteringKeepsShelfFiled(selectors, shelf, docs, now, samples[..n], draws[..n]);
      var before := FilterSamples(selectors, shelf, docs, now, samples[..n], draws[..n]);
      var plan := Plan(selectors, SeriesOf(samples[n]));
      assert DrawsFit(plan, draws[n]);
      VerdictByPlan(before.shelf, now, plan, draws[n], samples[n]);
      RunKeepsSeries(before.shelf, now, plan, draws[n], Begin(samples[n]));
      var p := Outcome(selectors, before.shelf, now, samples[n], draws[n]);
      assert AllSeries(before.samples + [p.sample]) == AllSeries(before.samples) + [SeriesOf(p.sample)];
    }
  }

  /** The documentation in `l` is that of its metrics, taken from `docs`. */
  ghost predicate Documented(docs: map<string, string>, l: Ledger) {
    && (forall m :: m in l.docs <==> m in docs && exists i :: 0 <= i < |l.samples| && l.samples[i].metric == m)
    && (forall m | m in l.docs :: m in docs && l.docs[m] == docs[m])
  }

  /** The documentation that comes out is that of the metrics that come out. */
  lemma {:induction false} DocsFollowSamples(
    selectors: seq<Selector>, shelf: Shelf, docs: map<string, string>, now: nat, samples: seq<Sample>,
    draws: seq<seq<real>>)
    requires ScrapeDrawsFit(selectors, samples, draws)
    ensures Documented(docs, FilterSamples(selectors, shelf, docs, now, samples, draws))
    decreases |samples|
  {
    if samples != [] {
      var n := |samples| - 1;
      DocsFollowSamples(selectors, shelf, docs, now, samples[..n], draws[..n]);
      var before := FilterSamples(selectors, shelf, docs, now, samples[..n], draws[..n]);
      assert DrawsFit(Plan(selectors, SeriesOf(samples[n])), draws[n]);
      var p := Outcome(selectors, before.shelf, now, samples[n], draws[n]);
      DocsEntered(before, docs, now, p);
    }
  }

  lemma {:induction false} DocsEntered(l: Ledger, docs: map<string, string>, now: nat, p: Progress)
    requires Documented(docs, l)
    ensures Documented(docs, Enter(l, docs, now, p))
  {
    var l' := Enter(l, docs, now, p);
    if Kept(p) {
      assert l'.samples[|l.samples|] == p.sample;
      forall m ensures m in l'.docs <==> m in docs && exists i :: 0 <= i < |l'.samples| && l'.samples[i].metric == m {
        if i :| 0 <= i < |l.samples| && l.samples[i].metric == m {
          assert l'.samples[i].metric == m;
        }
      }
    }
  }

  // ---------- hit, miss and what is stored ----------

  ghost predicate Reduces(plan: seq<FilterAction>) {
    exists i | 0 <= i < |plan| :: plan[i].ReduceTimeResolution?
  }

  /** All matching time resolutions are equal to `r`. */
  ghost predicate Uniform(plan: seq<FilterAction>, r: nat) {
    forall i | 0 <= i < |plan| && plan[i].ReduceTimeResolution? :: plan[i].resolution == r
  }

  /** A sample must be stored exactly when its series is looked up and not found fresh. */
  lemma {:induction false} StoredOnMissOnly(
    shelf: Shelf, now: nat, plan: seq<FilterAction>, draws: seq<real>, sample: Sample, r: nat)
    requires WellFiled(shelf) && |plan| == |draws| && forall i | 0 <= i < |plan| :: Usable(plan[i])
    requires Uniform(plan, r)
    ensures Run(shelf, now, plan, draws, Begin(sample)).mustCache <==>
      Reduces(plan) && Find(shelf, SeriesOf(sample), now, r).None?
    decreases |plan|
  {
    if plan != [] {
      var n := |plan| - 1;
      assert forall i | 0 <= i < n :: plan[..n][i] == plan[i];
      StoredOnMissOnly(shelf, now, plan[..n], draws[..n], sample, r);
      RunKeepsSeries(shelf, now, plan[..n], draws[..n], Begin(sample));
      ReducesLast(plan);
    }
  }

  lemma {:induction false} ReducesLast(plan: seq<FilterAction>)
    requires plan != []
    ensures Reduces(plan) <==> Reduces(plan[..|plan| - 1]) || plan[|plan| - 1].ReduceTimeResolution?
  {
    var front := plan[..|plan| - 1];
    if i :| 0 <= i < |front| && front[i].ReduceTimeResolution? {
      assert plan[i].ReduceTimeResolution?;
    }
    if i :| 0 <= i < |plan| && plan[i].ReduceTimeResolution? {
      if i < |front| { assert front[i].ReduceTimeResolution?; }
    }
  }

  /** On a miss the sample goes through the plan as if nothing had ever been cached. */
  lemma {:induction false} MissIgnoresShelf(
    shelf: Shelf, now: nat, plan: seq<FilterAction>, draws: seq<real>, sample: Sample, r: nat)
    requires WellFiled(shelf) && |plan| == |draws| && forall i | 0 <= i < |plan| :: Usable(plan[i])
    requires Uniform(plan, r) && Find(shelf, SeriesOf(sample), now, r).None?
    ensures Run(shelf, now, plan, draws, Begin(sample)) == Run(map[], now, plan, draws, Begin(sample))
    decreases |plan|
  {
    if plan != [] {
      var n := |plan| - 1;
      assert forall i | 0 <= i < n :: plan[..n][i] == plan[i];
      MissIgnoresShelf(shelf, now, plan[..n], draws[..n], sample, r);
      RunKeepsSeries(shelf, now, plan[..n], draws[..n], Begin(sample));
    }
  }

  /** Some reduction has no noise after it. */
  ghost predicate QuietAfterReduce(plan: seq<FilterAction>) {
    exists q | 0 <= q < |plan| :: plan[q].ReduceTimeResolution? && forall j | q < j < |plan| ::
      !plan[j].AddAbsoluteNoise?
  }

  /** On a hit, with no noise after the reduction, the entry itself comes out. */
  lemma {:induction false} HitServesEntry(
    shelf: Shelf, now: nat, plan: seq<FilterAction>, draws: seq<real>, sample: Sample, r: nat)
    requires WellFiled(shelf) && |plan| == |draws| && forall i | 0 <= i < |plan| :: Usable(plan[i])
    requires Uniform(plan, r) && Find(shelf, SeriesOf(sample), now, r).Some? && QuietAfterReduce(plan)
    ensures Run(shelf, now, plan, draws, Begin(sample)).sample == shelf[SeriesOf(sample)].sample
    decreases |plan|
  {
    var n := |plan| - 1;
    RunKeepsSeries(shelf, now, plan[..n], draws[..n], Begin(sample));
    if !plan[n].ReduceTimeResolution? {
      var q :| 0 <= q < |plan| && plan[q].ReduceTimeResolution? && forall j | q < j < |plan| ::
        !plan[j].AddAbsoluteNoise?;
      assert plan[..n][q].ReduceTimeResolution?;
      assert forall j | q < j < n :: plan[..n][j] == plan[j];
      assert forall i | 0 <= i < n :: plan[..n][i] == plan[i];
      HitServesEntry(shelf, now, plan[..n], draws[..n], sample, r);
    }
  }

  // ---------- when resolutions differ ----------

  /** The sample is `origin` with some noise added, if any. */
  ghost predicate StemsFrom(x: Sample, origin: Sample) {
    x == origin.(value := x.value) && exists offset :: Shifted(origin.value, x.value, offset)
  }

  lemma {:induction false} StemsFromItself(x: Sample)
    ensures StemsFrom(x, x)
  {
    ShiftedNot(x.value);
  }

  lemma {:induction false} StemsTransitive(x: Sample, y: Sample, z: Sample)
    requires StemsFrom(x, y) && StemsFrom(y, z)
    ensures StemsFrom(x, z)
  {
    var o1 :| Shifted(y.value, x.value, o1);
    var o2 :| Shifted(z.value, y.value, o2);
    ShiftedTwice(z.value, y.value, x.value, o2, o1);
  }

  /** Some reduction of the plan finds the series fresh. */
  ghost predicate AnyHit(shelf: Shelf, s: Series, now: nat, plan: seq<FilterAction>) {
    exists i | 0 <= i < |plan| :: plan[i].ReduceTimeResolution? && Find(shelf, s, now, plan[i].resolution).Some?
  }

  /** Some reduction of the plan does not find the series, or finds it stale. */
  ghost predicate AnyMiss(shelf: Shelf, s: Series, now: nat, plan: seq<FilterAction>) {
    exists i | 0 <= i < |plan| :: plan[i].ReduceTimeResolution? && Find(shelf, s, now, plan[i].resolution).None?
  }

  lemma {:induction false} AnyHitLast(shelf: Shelf, s: Series, now: nat, plan: seq<FilterAction>)
    requires plan != []
    ensures
      var n := |plan| - 1;
      AnyHit(shelf, s, now, plan) <==>
        AnyHit(shelf, s, now, plan[..n]) || (plan[n].ReduceTimeResolution?
          && Find(shelf, s, now, plan[n].resolution).Some?)
  {
    var front := plan[..|plan| - 1];
    assert forall i | 0 <= i < |front| :: front[i] == plan[i];
  }

  lemma {:induction false} AnyMissLast(shelf: Shelf, s: Series, now: nat, plan: seq<FilterAction>)
    requires plan != []
    ensures
      var n := |plan| - 1;
      AnyMiss(shelf, s, now, plan) <==>
        AnyMiss(shelf, s, now, plan[..n]) || (plan[n].ReduceTimeResolution?
          && Find(shelf, s, now, plan[n].resolution).None?)
  {
    var front := plan[..|plan| - 1];
    assert forall i | 0 <= i < |front| :: front[i] == plan[i];
  }

  /** All noise comes before every reduction, as the documentation asks. */
  ghost predicate NoiseFirst(plan: seq<FilterAction>) {
    forall i, j | 0 <= i < j < |plan| && plan[i].ReduceTimeResolution? :: !plan[j].AddAbsoluteNoise?
  }

  /** What a plan makes of a sample, whatever its resolutions: `entry` with noise, or as with no cache at all. */
  ghost predicate Originates(p: Progress, hit: bool, noiseFirst: bool, entry: Sample, uncached: Progress) {
    && (hit ==> StemsFrom(p.sample, entry) && (noiseFirst ==> p.sample == entry))
    && (!hit ==> p.sample == uncached.sample)
  }

  lemma {:induction false} RunOrigin(shelf: Shelf, now: nat, plan: seq<FilterAction>, draws: seq<real>, sample: Sample)
    requires WellFiled(shelf) && |plan| == |draws| && forall i | 0 <= i < |plan| :: Usable(plan[i])
    ensures
      var s := SeriesOf(sample);
      var p := Run(shelf, now, plan, draws, Begin(sample));
      && (p.mustCache <==> AnyMiss(shelf, s, now, plan))
      && (AnyHit(shelf, s, now, plan) ==> s in shelf)
      && Originates(p, AnyHit(shelf, s, now, plan), NoiseFirst(plan),
                    if s in shelf then shelf[s].sample else sample, Run(map[], now, plan, draws, Begin(sample)))
    decreases |plan|
  {
    if plan != [] {
      var n := |plan| - 1;
      var s := SeriesOf(sample);
      RunOrigin(shelf, now, plan[..n], draws[..n], sample);
      RunKeepsSeries(shelf, now, plan[..n], draws[..n], Begin(sample));
      AnyHitLast(shelf, s, now, plan);
      AnyMissLast(shelf, s, now, plan);
      assert forall i | 0 <= i < n :: plan[..n][i] == plan[i];
      var before := Run(shelf, now, plan[..n], draws[..n], Begin(sample));
      var uncached := Run(map[], now, plan[..n], draws[..n], Begin(sample));
      if s in shelf {
        ActOrigin(shelf, now, plan, draws[n], sample, before, uncached);
      }
    }
  }

  lemma {:induction false} ActOrigin(
    shelf: Shelf, now: nat, plan: seq<FilterAction>, draw: real, sample: Sample, before: Progress, uncached: Progress)
    requires plan != [] && Usable(plan[|plan| - 1])
    requires SeriesOf(before.sample) == SeriesOf(sample) && SeriesOf(sample) in shelf
    requires
      var s := SeriesOf(sample);
      Originates(before, AnyHit(shelf, s, now, plan[..|plan| - 1]), NoiseFirst(plan[..|plan| - 1]), shelf[s].sample,
        uncached)
    ensures
      var s := SeriesOf(sample);
      var a := plan[|plan| - 1];
      Originates(Act(shelf, now, a, draw, before), AnyHit(shelf, s, now, plan), NoiseFirst(plan), shelf[s].sample,
                 Act(map[], now, a, draw, uncached))
  {
    var n := |plan| - 1;
    var s := SeriesOf(sample);
    var entry := shelf[s].sample;
    AnyHitLast(shelf, s, now, plan);
    NoiseFirstLast(plan);
    match plan[n] {
      case AddAbsoluteNoise(_, quantum) =>
        if AnyHit(shelf, s, now, plan[..n]) {
          var noisy := before.sample.(value := Perturb(before.sample.value, Quantized(draw, quantum)));
          PerturbShifts(before.sample.value, Quantized(draw, quantum), noisy.value);
          assert StemsFrom(noisy, before.sample);
          StemsTransitive(noisy, before.sample, entry);
          HitMeansReduced(shelf, s, now, plan[..n]);
        }
      case _ => StemsFromItself(entry);
    }
  }

  lemma {:induction false} HitMeansReduced(shelf: Shelf, s: Series, now: nat, plan: seq<FilterAction>)
    requires AnyHit(shelf, s, now, plan)
    ensures Reduces(plan)
  {
    var i :| 0 <= i < |plan| && plan[i].ReduceTimeResolution? && Find(shelf, s, now, plan[i].resolution).Some?;
  }

  lemma {:induction false} NoiseFirstLast(plan: seq<FilterAction>)
    requires plan != []
    ensures
      var n := |plan| - 1;
      NoiseFirst(plan) <==> NoiseFirst(plan[..n]) && (plan[n].AddAbsoluteNoise? ==> !Reduces(plan[..n]))
  {
    var front := plan[..|plan| - 1];
    assert forall i | 0 <= i < |front| :: front[i] == plan[i];
  }

  lemma {:induction false} TimestampWithoutShelf(now: nat, plan: seq<FilterAction>, draws: seq<real>, sample: Sample)
    requires |plan| == |draws| && forall i | 0 <= i < |plan| :: Usable(plan[i])
    ensures Run(map[], now, plan, draws, Begin(sample)).sample.timestamp == sample.timestamp
    decreases |plan|
  {
    if plan != [] {
      TimestampWithoutShelf(now, plan[..|plan| - 1], draws[..|plan| - 1], sample);
    }
  }

  /** What a plan stores is always this very sample, not one that came out of the cache. */
  ghost predicate StoresOnlyOwn(plan: seq<FilterAction>, s: Series) {
    forall shelf: Shelf, now: nat, draws: seq<real>, sample: Sample
      | WellFiled(shelf) && DrawsFit(plan, draws) && SeriesOf(sample) == s
        && Run(shelf, now, plan, draws, Begin(sample)).mustCache
      :: Run(shelf, now, plan, draws, Begin(sample)) == Run(map[], now, plan, draws, Begin(sample))
  }

  ghost predicate ResolutionsAgree(plan: seq<FilterAction>) {
    forall i, j | 0 <= i < |plan| && 0 <= j < |plan| && plan[i].ReduceTimeResolution? && plan[j].ReduceTimeResolution?
      :: plan[i].resolution == plan[j].resolution
  }

  /**
   Whatever the cache holds, a sample that must be stored is what the plan makes of the
   scraped sample alone, exactly when all resolutions of the plan are equal; with two different
   ones, a miss on one and a hit on the other store a cached sample once more.
   */
  lemma {:induction false} StoresOwnExactly(plan: seq<FilterAction>, s: Series)
    requires forall i | 0 <= i < |plan| :: Usable(plan[i])
    ensures StoresOnlyOwn(plan, s) <==> ResolutionsAgree(plan)
  {
    if ResolutionsAgree(plan) {
      forall shelf: Shelf, now: nat, draws: seq<real>, sample: Sample
        | WellFiled(shelf) && DrawsFit(plan, draws) && SeriesOf(sample) == s
          && Run(shelf, now, plan, draws, Begin(sample)).mustCache
        ensures Run(shelf, now, plan, draws, Begin(sample)) == Run(map[], now, plan, draws, Begin(sample))
      {
        AgreedStoresOwn(shelf, now, plan, draws, sample);
      }
    } else {
      var i, j :| 0 <= i < |plan| && 0 <= j < |plan| && plan[i].ReduceTimeResolution? && plan[j].ReduceTimeResolution?
        && plan[i].resolution < plan[j].resolution;
      StoresCached(plan, s, plan[i].resolution, plan[j].resolution);
    }
  }

  lemma {:induction false} AgreedStoresOwn(
    shelf: Shelf, now: nat, plan: seq<FilterAction>, draws: seq<real>, sample: Sample)
    requires WellFiled(shelf) && DrawsFit(plan, draws) && ResolutionsAgree(plan)
    requires Run(shelf, now, plan, draws, Begin(sample)).mustCache
    ensures Run(shelf, now, plan, draws, Begin(sample)) == Run(map[], now, plan, draws, Begin(sample))
  {
    if i :| 0 <= i < |plan| && plan[i].ReduceTimeResolution? {
      var r := plan[i].resolution;
      StoredOnMissOnly(shelf, now, plan, draws, sample, r);
      MissIgnoresShelf(shelf, now, plan, draws, sample, r);
    } else {
      StoredOnMissOnly(shelf, now, plan, draws, sample, 0);
    }
  }

  lemma {:induction false} StoresCached(plan: seq<FilterAction>, s: Series, low: nat, high: nat)
    requires forall i | 0 <= i < |plan| :: Usable(plan[i])
    requires low < high
    requires ReduceTimeResolution(low) in plan && ReduceTimeResolution(high) in plan
    ensures !StoresOnlyOwn(plan, s)
  {
    var sample := Sample(s.metric, Untyped(0.0), s.labels, 1);
    var entry := Entry(sample.(timestamp := 0), high - low);
    var shelf: Shelf := map[s := entry];
    var draws := seq(|plan|, i => 0.0);
    RunOrigin(shelf, high, plan, draws, sample);
    assert Find(shelf, s, high, low).None? && Find(shelf, s, high, high).Some?;
    assert AnyMiss(shelf, s, high, plan) && AnyHit(shelf, s, high, plan);
    TimestampWithoutShelf(high, plan, draws, sample);
    assert DrawsFit(plan, draws);
    assert Run(shelf, high, plan, draws, Begin(sample)).mustCache;
  }
}
