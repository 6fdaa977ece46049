/**
 The filters over whole runs: an unbounded sequence of scrapes, in the order in which they
 lock the cache, whose clock readings need not be in order.
 */
module FilterRuns {
  import opened Samples
  import opened SampleCache
  import opened Filters
  import opened FilterLaws

  /** One sample going through the filters. */
  datatype Visit = Visit(now: nat, sample: Sample, draws: seq<real>)

  predicate VisitsFit(selectors: seq<Selector>, visits: seq<Visit>) {
    forall i | 0 <= i < |visits| :: DrawsFit(Plan(selectors, SeriesOf(visits[i].sample)), visits[i].draws)
  }

  function OutcomeOf(selectors: seq<Selector>, shelf: Shelf, v: Visit): Progress
    requires DrawsFit(Plan(selectors, SeriesOf(v.sample)), v.draws)
  {
    Outcome(selectors, shelf, v.now, v.sample, v.draws)
  }

  /** What a visit makes of its own scraped sample and its own draws alone. */
  function FreshSample(selectors: seq<Selector>, v: Visit): Sample
    requires DrawsFit(Plan(selectors, SeriesOf(v.sample)), v.draws)
  {
    Run(map[], v.now, Plan(selectors, SeriesOf(v.sample)), v.draws, Begin(v.sample)).sample
  }

  /** The shelf after a run that starts with an empty cache. */
  function ShelfAfter(selectors: seq<Selector>, visits: seq<Visit>): Shelf
    requires VisitsFit(selectors, visits)
    decreases |visits|
  {
    if visits == [] then map[]
    else
      var n := |visits| - 1;
      var before := ShelfAfter(selectors, visits[..n]);
      Store(before, visits[n].now, OutcomeOf(selectors, before, visits[n]))
  }

  /** What came of visit `i` of the run. */
  function OutcomeAt(selectors: seq<Selector>, visits: seq<Visit>, i: nat): Progress
    requires VisitsFit(selectors, visits) && i < |visits|
  {
    OutcomeOf(selectors, ShelfAfter(selectors, visits[..i]), visits[i])
  }

  /** The samples of one scrape as visits. */
  function VisitsOf(now: nat, samples: seq<Sample>, draws: seq<seq<real>>): seq<Visit>
    requires |samples| == |draws|
  {
    seq(|samples|, i requires 0 <= i < |samples| => Visit(now, samples[i], draws[i]))
  }

  lemma {:induction false} ShelfAfterMore(selectors: seq<Selector>, visits: seq<Visit>, v: Visit)
    requires VisitsFit(selectors, visits + [v])
    ensures VisitsFit(selectors, visits)
    ensures DrawsFit(Plan(selectors, SeriesOf(v.sample)), v.draws)
    ensures ShelfAfter(selectors, visits + [v])
      == Store(ShelfAfter(selectors, visits), v.now, OutcomeOf(selectors, ShelfAfter(selectors, visits), v))
  {
    assert (visits + [v])[|visits|] == v;
    assert forall i | 0 <= i < |visits| :: (visits + [v])[i] == visits[i];
    assert (visits + [v])[..|visits|] == visits;
  }

  lemma {:induction false} FilterLast(
    selectors: seq<Selector>, shelf: Shelf, docs: map<string, string>, now: nat, samples: seq<Sample>,
    draws: seq<seq<real>>)
    requires ScrapeDrawsFit(selectors, samples, draws) && samples != []
    ensures
      var n := |samples| - 1;
      && ScrapeDrawsFit(selectors, samples[..n], draws[..n])
      && DrawsFit(Plan(selectors, SeriesOf(samples[n])), draws[n])
      && (var before := FilterSamples(selectors, shelf, docs, now, samples[..n], draws[..n]);
          FilterSamples(selectors, shelf, docs, now, samples, draws).shelf
          == Store(before.shelf, now, OutcomeOf(selectors, before.shelf, Visit(now, samples[n], draws[n]))))
  {
    var n := |samples| - 1;
    assert DrawsFit(Plan(selectors, SeriesOf(samples[n])), draws[n]);
  }

  /** A scrape after a run leaves the shelf that the longer run leaves. */
  lemma {:induction false} ScrapeExtendsRun(
    selectors: seq<Selector>, visits: seq<Visit>, docs: map<string, string>, now: nat, samples: seq<Sample>,
    draws: seq<seq<real>>)
    requires VisitsFit(selectors, visits) && ScrapeDrawsFit(selectors, samples, draws)
    ensures VisitsFit(selectors, visits + VisitsOf(now, samples, draws))
    ensures FilterSamples(selectors, ShelfAfter(selectors, visits), docs, now, samples, draws).shelf
      == ShelfAfter(selectors, visits + VisitsOf(now, samples, draws))
    decreases |samples|
  {
    var added := VisitsOf(now, samples, draws);
    if samples == [] {
      assert visits + added == visits;
    } else {
      var n := |samples| - 1;
      FilterLast(selectors, ShelfAfter(selectors, visits), docs, now, samples, draws);
      ScrapeExtendsRun(selectors, visits, docs, now, samples[..n], draws[..n]);
      OneMoreVisit(selectors, visits, now, samples, draws);
    }
  }

  /** Visit `i` of the run let `x` through. */
  ghost predicate Emits(selectors: seq<Selector>, visits: seq<Visit>, i: nat, x: Sample) {
    && i < |visits| && VisitsFit(selectors, visits)
    && Kept(OutcomeAt(selectors, visits, i)) && OutcomeAt(selectors, visits, i).sample == x
  }

  /** Every sample that comes out of a scrape is what one of the scrape's visits let through. */
  lemma {:induction false} ScrapeEmits(
    selectors: seq<Selector>, visits: seq<Visit>, docs: map<string, string>, now: nat, samples: seq<Sample>,
    draws: seq<seq<real>>, x: Sample)
    returns (i: nat)
    requires VisitsFit(selectors, visits) && ScrapeDrawsFit(selectors, samples, draws)
    requires x in FilterSamples(selectors, ShelfAfter(selectors, visits), docs, now, samples, draws).samples
    ensures |visits| <= i < |visits| + |samples|
    ensures Emits(selectors, visits + VisitsOf(now, samples, draws), i, x)
    decreases |samples|
  {
    hide Run, Plan, ShelfAfter;
    var n := |samples| - 1;
    assert FilterSamples(selectors, ShelfAfter(selectors, visits), docs, now, samples[..0], draws[..0]).samples == [];
    ScrapeExtendsRun(selectors, visits, docs, now, samples, draws);
    if x in FilterSamples(selectors, ShelfAfter(selectors, visits), docs, now, samples[..n], draws[..n]).samples {
      i := ScrapeEmits(selectors, visits, docs, now, samples[..n], draws[..n], x);
      var shorter, longer := visits + VisitsOf(now, samples[..n], draws[..n]), visits + VisitsOf(now, samples, draws);
      assert shorter == longer[..|visits| + n];
      EmitsLonger(selectors, shorter, longer, i, x);
    } else {
      i := |visits| + n;
      LastEmits(selectors, visits, docs, now, samples, draws);
    }
  }

  lemma {:induction false} LastEmits(
    selectors: seq<Selector>, visits: seq<Visit>, docs: map<string, string>, now: nat, samples: seq<Sample>,
    draws: seq<seq<real>>)
    requires VisitsFit(selectors, visits) && ScrapeDrawsFit(selectors, samples, draws) && samples != []
    ensures
      var n := |samples| - 1;
      var longer := visits + VisitsOf(now, samples, draws);
      && DrawsFit(Plan(selectors, SeriesOf(samples[n])), draws[n])
      && VisitsFit(selectors, longer)
      && (var before := FilterSamples(selectors, ShelfAfter(selectors, visits), docs, now, samples[..n], draws[..n]);
          OutcomeAt(selectors, longer, |visits| + n) == Outcome(selectors, before.shelf, now, samples[n], draws[n]))
  {
    hide Run, Plan, ShelfAfter, FilterSamples;
    var n := |samples| - 1;
    FilterLast(selectors, ShelfAfter(selectors, visits), docs, now, samples, draws);
    ScrapeExtendsRun(selectors, visits, docs, now, samples, draws);
    ScrapeExtendsRun(selectors, visits, docs, now, samples[..n], draws[..n]);
    var longer := visits + VisitsOf(now, samples, draws);
    assert longer[..|visits| + n] == visits + VisitsOf(now, samples[..n], draws[..n]);
    assert longer[|visits| + n] == Visit(now, samples[n], draws[n]);
  }

  lemma {:induction false} EmitsLonger(
    selectors: seq<Selector>, visits: seq<Visit>, longer: seq<Visit>, i: nat, x: Sample)
    requires visits <= longer && VisitsFit(selectors, longer) && Emits(selectors, visits, i, x)
    ensures Emits(selectors, longer, i, x)
  {
    assert longer[..i] == visits[..i];
  }

  lemma {:induction false} OneMoreVisit(
    selectors: seq<Selector>, visits: seq<Visit>, now: nat, samples: seq<Sample>, draws: seq<seq<real>>)
    requires samples != [] && |samples| == |draws|
    requires VisitsFit(selectors, visits + VisitsOf(now, samples[..|samples| - 1], draws[..|samples| - 1]))
    requires DrawsFit(Plan(selectors, SeriesOf(samples[|samples| - 1])), draws[|samples| - 1])
    ensures VisitsFit(selectors, visits + VisitsOf(now, samples, draws))
    ensures
      var n := |samples| - 1;
      var v := Visit(now, samples[n], draws[n]);
      var shelf := ShelfAfter(selectors, visits + VisitsOf(now, samples[..n], draws[..n]));
      ShelfAfter(selectors, visits + VisitsOf(now, samples, draws)) == Store(shelf, now, OutcomeOf(selectors, shelf, v))
  {
    var n := |samples| - 1;
    var shorter := visits + VisitsOf(now, samples[..n], draws[..n]);
    var v := Visit(now, samples[n], draws[n]);
    assert visits + VisitsOf(now, samples, draws) == shorter + [v];
    assert forall i | 0 <= i < |shorter| :: (shorter + [v])[i] == shorter[i];
    ShelfAfterMore(selectors, shorter, v);
  }

  lemma {:induction false} RunShelfFiled(selectors: seq<Selector>, visits: seq<Visit>)
    requires VisitsFit(selectors, visits)
    ensures WellFiled(ShelfAfter(selectors, visits))
    decreases |visits|
  {
    if visits != [] {
      RunShelfFiled(selectors, visits[..|visits| - 1]);
    }
  }

  // ---------- one visit ----------

  /** What a visit does to the entry of a series whose matching resolutions all equal `r`. */
  lemma {:induction false} VisitEntry(selectors: seq<Selector>, shelf: Shelf, v: Visit, r: nat)
    requires WellFiled(shelf) && DrawsFit(Plan(selectors, SeriesOf(v.sample)), v.draws)
    requires
      var plan := Plan(selectors, SeriesOf(v.sample));
      Uniform(plan, r) && Reduces(plan) && !Dropped(plan)
    ensures
      var s := SeriesOf(v.sample);
      var p := OutcomeOf(selectors, shelf, v);
      var shelf' := Store(shelf, v.now, p);
      && (Find(shelf, s, v.now, r).Some? ==> shelf' == shelf)
      && (Find(shelf, s, v.now, r).None? ==>
            && shelf' == shelf[s := Entry(p.sample, v.now)]
            && p == Run(map[], v.now, Plan(selectors, s), v.draws, Begin(v.sample)))
  {
    var plan := Plan(selectors, SeriesOf(v.sample));
    VerdictByPlan(shelf, v.now, plan, v.draws, v.sample);
    StoredOnMissOnly(shelf, v.now, plan, v.draws, v.sample, r);
    RunKeepsSeries(shelf, v.now, plan, v.draws, Begin(v.sample));
    if Find(shelf, SeriesOf(v.sample), v.now, r).None? {
      MissIgnoresShelf(shelf, v.now, plan, v.draws, v.sample, r);
    }
  }

  lemma {:induction false} OtherSeriesUntouched(selectors: seq<Selector>, shelf: Shelf, v: Visit, s: Series)
    requires WellFiled(shelf) && DrawsFit(Plan(selectors, SeriesOf(v.sample)), v.draws)
    requires s != SeriesOf(v.sample)
    ensures
      var shelf' := Store(shelf, v.now, OutcomeOf(selectors, shelf, v));
      (s in shelf' <==> s in shelf) && (s in shelf ==> shelf'[s] == shelf[s])
  {
    RunKeepsSeries(shelf, v.now, Plan(selectors, SeriesOf(v.sample)), v.draws, Begin(v.sample));
  }

  // ---------- stamps ----------

  /** No clock reading for the series lies before the platform's earliest instant plus `r`. */
  predicate NoUnderflow(visits: seq<Visit>, s: Series, r: nat) {
    forall i | 0 <= i < |visits| && SeriesOf(visits[i].sample) == s :: r <= visits[i].now
  }

  ghost predicate Reduced(selectors: seq<Selector>, s: Series, r: nat) {
    var plan := Plan(selectors, s);
    Uniform(plan, r) && Reduces(plan) && !Dropped(plan)
  }

  lemma {:induction false} StampStep(selectors: seq<Selector>, shelf: Shelf, v: Visit, s: Series, r: nat)
    requires WellFiled(shelf) && s in shelf && Reduced(selectors, s, r)
    requires DrawsFit(Plan(selectors, SeriesOf(v.sample)), v.draws)
    requires SeriesOf(v.sample) == s ==> r <= v.now
    ensures
      var shelf' := Store(shelf, v.now, OutcomeOf(selectors, shelf, v));
      s in shelf' && (shelf'[s] == shelf[s] || shelf'[s].savedAt >= shelf[s].savedAt + r)
  {
    if SeriesOf(v.sample) == s {
      VisitEntry(selectors, shelf, v, r);
      FindExactly(shelf, s, v.now, r);
    } else {
      OtherSeriesUntouched(selectors, shelf, v, s);
    }
  }

  /** An entry, once there, stays until it is replaced by one at least `r` younger. */
  lemma {:induction false} StampsApart(selectors: seq<Selector>, visits: seq<Visit>, i: nat, s: Series, r: nat)
    requires VisitsFit(selectors, visits) && i <= |visits|
    requires Reduced(selectors, s, r) && NoUnderflow(visits, s, r)
    requires s in ShelfAfter(selectors, visits[..i])
    ensures s in ShelfAfter(selectors, visits)
    ensures
      var earlier, later := ShelfAfter(selectors, visits[..i])[s], ShelfAfter(selectors, visits)[s];
      later == earlier || later.savedAt >= earlier.savedAt + r
    decreases |visits|
  {
    hide Plan, OutcomeOf, Reduced, Store;
    if i == |visits| {
      assert visits[..i] == visits;
    } else {
      var n := |visits| - 1;
      var front := visits[..n];
      assert front[..i] == visits[..i];
      assert NoUnderflow(front, s, r);
      StampsApart(selectors, front, i, s, r);
      RunShelfFiled(selectors, front);
      assert visits == front + [visits[n]];
      ShelfAfterMore(selectors, front, visits[n]);
      StampStep(selectors, ShelfAfter(selectors, front), visits[n], s, r);
    }
  }

  /**
   The clock need not be in order, but it must have run for at least `r`: a visit keeps every
   possible stamp distance exactly when its reading is not below `r`.
   */
  lemma {:induction false} ApartExactly(selectors: seq<Selector>, v: Visit, r: nat)
    requires DrawsFit(Plan(selectors, SeriesOf(v.sample)), v.draws)
    requires Reduced(selectors, SeriesOf(v.sample), r) && r > 0
    ensures
      (forall shelf: Shelf | WellFiled(shelf) && SeriesOf(v.sample) in shelf ::
         var s := SeriesOf(v.sample);
         var shelf' := Store(shelf, v.now, OutcomeOf(selectors, shelf, v));
         s in shelf' && (shelf'[s] == shelf[s] || shelf'[s].savedAt >= shelf[s].savedAt + r))
      <==> r <= v.now
  {
    var s := SeriesOf(v.sample);
    if r <= v.now {
      forall shelf: Shelf | WellFiled(shelf) && s in shelf
        ensures
          var shelf' := Store(shelf, v.now, OutcomeOf(selectors, shelf, v));
          s in shelf' && (shelf'[s] == shelf[s] || shelf'[s].savedAt >= shelf[s].savedAt + r)
      {
        VisitEntry(selectors, shelf, v, r);
        FindExactly(shelf, s, v.now, r);
      }
    } else {
      var shelf: Shelf := map[s := Entry(v.sample, v.now + 1)];
      assert WellFiled(shelf);
      VisitEntry(selectors, shelf, v, r);
      FindExactly(shelf, s, v.now, r);
      assert Store(shelf, v.now, OutcomeOf(selectors, shelf, v))[s].savedAt == v.now;
    }
  }

  /** Every kept sample of the series comes out with a stamp less than `r` before its scrape's clock. */
  lemma {:induction false} EmissionAge(selectors: seq<Selector>, visits: seq<Visit>, i: nat, r: nat)
    requires VisitsFit(selectors, visits) && i < |visits| && r > 0
    requires Reduced(selectors, SeriesOf(visits[i].sample), r)
    ensures VisitsFit(selectors, visits[..i + 1])
    ensures
      var s := SeriesOf(visits[i].sample);
      var shelf := ShelfAfter(selectors, visits[..i + 1]);
      s in shelf && visits[i].now < shelf[s].savedAt + r
  {
    var v := visits[i];
    assert DrawsFit(Plan(selectors, SeriesOf(v.sample)), v.draws);
    assert visits[..i + 1] == visits[..i] + [v];
    RunShelfFiled(selectors, visits[..i]);
    ShelfAfterMore(selectors, visits[..i], v);
    VisitEntry(selectors, ShelfAfter(selectors, visits[..i]), v, r);
    FindExactly(ShelfAfter(selectors, visits[..i]), SeriesOf(v.sample), v.now, r);
  }

  /** With no noise after the reduction, what comes out is what the shelf then holds. */
  lemma {:induction false} EmissionIsEntry(selectors: seq<Selector>, visits: seq<Visit>, i: nat, r: nat)
    requires VisitsFit(selectors, visits) && i < |visits|
    requires Reduced(selectors, SeriesOf(visits[i].sample), r)
    requires QuietAfterReduce(Plan(selectors, SeriesOf(visits[i].sample)))
    ensures VisitsFit(selectors, visits[..i + 1])
    ensures
      var s := SeriesOf(visits[i].sample);
      var shelf := ShelfAfter(selectors, visits[..i + 1]);
      s in shelf && Kept(OutcomeAt(selectors, visits, i)) && OutcomeAt(selectors, visits, i).sample == shelf[s].sample
  {
    hide Run, Plan, QuietAfterReduce, Dropped;
    var v := visits[i];
    var s := SeriesOf(v.sample);
    var plan := Plan(selectors, s);
    assert DrawsFit(plan, v.draws);
    assert visits[..i + 1] == visits[..i] + [v];
    RunShelfFiled(selectors, visits[..i]);
    ShelfAfterMore(selectors, visits[..i], v);
    var shelf := ShelfAfter(selectors, visits[..i]);
    VisitEntry(selectors, shelf, v, r);
    VerdictByPlan(shelf, v.now, plan, v.draws, v.sample);
    if Find(shelf, s, v.now, r).Some? {
      HitServesEntry(shelf, v.now, plan, v.draws, v.sample, r);
    }
  }

  lemma {:induction false} NoUnderflowBefore(visits: seq<Visit>, n: nat, s: Series, r: nat)
    requires n <= |visits| && NoUnderflow(visits, s, r)
    ensures NoUnderflow(visits[..n], s, r)
  {
  }

  /**
   The time-resolution guarantee over whole runs: of two emissions of one series, either both
   are the same sample, whatever the backend returned and the noise drew in between, or the
   cache entry behind the later one is at least `r` younger.
   */
  lemma {:induction false} TimeResolution(
    selectors: seq<Selector>, visits: seq<Visit>, i: nat, j: nat, s: Series, r: nat)
    requires VisitsFit(selectors, visits) && i < j < |visits|
    requires SeriesOf(visits[i].sample) == SeriesOf(visits[j].sample) == s
    requires Reduced(selectors, s, r) && QuietAfterReduce(Plan(selectors, s)) && NoUnderflow(visits, s, r)
    ensures VisitsFit(selectors, visits[..i + 1]) && VisitsFit(selectors, visits[..j + 1])
    ensures s in ShelfAfter(selectors, visits[..i + 1]) && s in ShelfAfter(selectors, visits[..j + 1])
    ensures
      var first, second := ShelfAfter(selectors, visits[..i + 1])[s], ShelfAfter(selectors, visits[..j + 1])[s];
      || OutcomeAt(selectors, visits, i).sample == OutcomeAt(selectors, visits, j).sample
      || second.savedAt >= first.savedAt + r
  {
    hide *;
    EmissionIsEntry(selectors, visits, i, r);
    EmissionIsEntry(selectors, visits, j, r);
    NoUnderflowBefore(visits, j + 1, s, r);
    assert visits[..j + 1][..i + 1] == visits[..i + 1];
    StampsApart(selectors, visits[..j + 1], i + 1, s, r);
  }

  // ---------- where entries come from ----------

  /**
   Every cache entry was emitted by an earlier visit of its series at its stamp; in
   particular dropped samples are never stored.
   */
  lemma {:induction false} EntryWasEmitted(selectors: seq<Selector>, visits: seq<Visit>, s: Series) returns (i: nat)
    requires VisitsFit(selectors, visits) && s in ShelfAfter(selectors, visits)
    ensures i < |visits| && SeriesOf(visits[i].sample) == s
    ensures Kept(OutcomeAt(selectors, visits, i)) && OutcomeAt(selectors, visits, i).mustCache
    ensures ShelfAfter(selectors, visits)[s] == Entry(OutcomeAt(selectors, visits, i).sample, visits[i].now)
    decreases |visits|
  {
    var n := |visits| - 1;
    var v := visits[n];
    RunShelfFiled(selectors, visits[..n]);
    assert DrawsFit(Plan(selectors, SeriesOf(v.sample)), v.draws);
    var before := ShelfAfter(selectors, visits[..n]);
    var p := OutcomeAt(selectors, visits, n);
    RunKeepsSeries(before, v.now, Plan(selectors, SeriesOf(v.sample)), v.draws, Begin(v.sample));
    if SeriesOf(v.sample) == s && Kept(p) && p.mustCache {
      i := n;
    } else {
      i := EntryWasEmitted(selectors, visits[..n], s);
      assert visits[..n][..i] == visits[..i];
    }
  }

  /**
   If all matching resolutions of a series agree, its entry is what its own visit made of its
   own scraped sample and draws, so its stamp is the time it was scraped and processed.
   */
  lemma {:induction false} EntryIsFresh(
    selectors: seq<Selector>, visits: seq<Visit>, s: Series, r: nat)
    returns (i: nat)
    requires VisitsFit(selectors, visits) && s in ShelfAfter(selectors, visits)
    requires Uniform(Plan(selectors, s), r)
    ensures i < |visits| && SeriesOf(visits[i].sample) == s
    ensures DrawsFit(Plan(selectors, s), visits[i].draws)
    ensures ShelfAfter(selectors, visits)[s]
      == Entry(Run(map[], visits[i].now, Plan(selectors, s), visits[i].draws, Begin(visits[i].sample)).sample,
        visits[i].now)
  {
    i := EntryWasEmitted(selectors, visits, s);
    var v := visits[i];
    assert DrawsFit(Plan(selectors, SeriesOf(v.sample)), v.draws);
    RunShelfFiled(selectors, visits[..i]);
    var shelf := ShelfAfter(selectors, visits[..i]);
    StoredOnMissOnly(shelf, v.now, Plan(selectors, s), v.draws, v.sample, r);
    MissIgnoresShelf(shelf, v.now, Plan(selectors, s), v.draws, v.sample, r);
  }
}
