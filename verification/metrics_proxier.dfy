/** The proxier object: nested loops over samples, selectors and actions, and one shared cache. */
module MetricsProxier {
  import opened Wrappers
  import opened Samples
  import opened TextOrder
  import opened SampleCache
  import opened Filters
  import opened FilterLaws

  /** The unambiguous samples, in their order. */
  function Unambiguous(samples: seq<Sample>): seq<Sample> {
    if samples == [] then []
    else
      var n := |samples| - 1;
      Unambiguous(samples[..n]) + (if Ambiguous(SeriesOf(samples[n])) then [] else [samples[n]])
  }

  predicate Clean(samples: seq<Sample>) {
    forall i | 0 <= i < |samples| :: !Ambiguous(SeriesOf(samples[i]))
  }

  lemma {:induction false} CleanIsUnambiguous(samples: seq<Sample>)
    requires Clean(samples)
    ensures Unambiguous(samples) == samples
    decreases |samples|
  {
    if samples != [] {
      CleanIsUnambiguous(samples[..|samples| - 1]);
    }
  }

  lemma {:induction false} UnambiguousMore(samples: seq<Sample>, x: Sample)
    ensures Unambiguous(samples + [x]) == Unambiguous(samples) + (if Ambiguous(SeriesOf(x)) then [] else [x])
    ensures Clean(samples + [x]) <==> Clean(samples) && !Ambiguous(SeriesOf(x))
  {
    assert (samples + [x])[..|samples|] == samples;
    assert forall i | 0 <= i < |samples| :: (samples + [x])[i] == samples[i];
    assert (samples + [x])[|samples|] == x;
  }

  predicate InRange(action: FilterAction, draw: real) {
    Usable(action) && (action.AddAbsoluteNoise? ==> -action.amplitude <= draw < action.amplitude)
  }

  /** `p` is what the action makes of `start`, for some draw in range. */
  ghost predicate ActedOn(shelf: Shelf, now: nat, action: FilterAction, start: Progress, p: Progress) {
    exists draw :: InRange(action, draw) && p == Act(shelf, now, action, draw, start)
  }

  /** `p` is what the plan makes of `start`, for some draws in range. */
  ghost predicate RunOn(shelf: Shelf, now: nat, plan: seq<FilterAction>, start: Progress, p: Progress) {
    exists draws :: DrawsFit(plan, draws) && p == Run(shelf, now, plan, draws, start)
  }

  /** `l` is what filtering the samples gives, for some draws in range. */
  ghost predicate Filtered(
    selectors: seq<Selector>, shelf: Shelf, now: nat, docs: map<string, string>, samples: seq<Sample>, l: Ledger) {
    exists draws :: ScrapeDrawsFit(selectors, samples, draws)
      && l == FilterSamples(selectors, shelf, docs, now, samples, draws)
  }

  lemma {:induction false} RunNothing(shelf: Shelf, now: nat, start: Progress)
    ensures RunOn(shelf, now, [], start, start)
  {
    assert DrawsFit([], []);
  }

  lemma {:induction false} RunFurther(
    shelf: Shelf, now: nat, plan: seq<FilterAction>, action: FilterAction, start: Progress, before: Progress,
    p: Progress)
    requires WellFiled(shelf) && RunOn(shelf, now, plan, start, before) && ActedOn(shelf, now, action, before, p)
    ensures RunOn(shelf, now, plan + [action], start, p)
    ensures SeriesOf(p.sample) == SeriesOf(before.sample)
  {
    hide Run, Act;
    var draws :| DrawsFit(plan, draws) && before == Run(shelf, now, plan, draws, start);
    var draw :| InRange(action, draw) && p == Act(shelf, now, action, draw, before);
    RunOneMore(shelf, now, plan, draws, action, draw, start);
    DrawsConcat(plan, draws, [action], [draw]);
    ActKeepsSeries(shelf, now, action, draw, before);
  }

  lemma {:induction false} RunsInTurn(
    shelf: Shelf, now: nat, plan1: seq<FilterAction>, plan2: seq<FilterAction>, start: Progress, before: Progress,
    p: Progress)
    requires WellFiled(shelf) && RunOn(shelf, now, plan1, start, before) && RunOn(shelf, now, plan2, before, p)
    ensures RunOn(shelf, now, plan1 + plan2, start, p)
    ensures SeriesOf(p.sample) == SeriesOf(before.sample)
  {
    hide Run;
    var draws1 :| DrawsFit(plan1, draws1) && before == Run(shelf, now, plan1, draws1, start);
    var draws2 :| DrawsFit(plan2, draws2) && p == Run(shelf, now, plan2, draws2, before);
    DrawsConcat(plan1, draws1, plan2, draws2);
    RunConcat(shelf, now, plan1, draws1, plan2, draws2, start);
    RunKeepsSeries(shelf, now, plan2, draws2, before);
  }

  lemma {:induction false} FilteredNothing(selectors: seq<Selector>, shelf: Shelf, now: nat, docs: map<string, string>)
    ensures Filtered(selectors, shelf, now, docs, [], Ledger(shelf, map[], []))
  {
    assert ScrapeDrawsFit(selectors, [], []);
  }

  lemma {:induction false} FilteredFurther(
    selectors: seq<Selector>, shelf: Shelf, now: nat, docs: map<string, string>, samples: seq<Sample>, x: Sample,
    l: Ledger, p: Progress)
    requires WellFiled(l.shelf) && Filtered(selectors, shelf, now, docs, samples, l)
    requires RunOn(l.shelf, now, Plan(selectors, SeriesOf(x)), Begin(x), p)
    ensures Filtered(selectors, shelf, now, docs, samples + [x], Enter(l, docs, now, p))
  {
    hide Run, Plan, FilterSamples;
    var draws :| ScrapeDrawsFit(selectors, samples, draws)
      && l == FilterSamples(selectors, shelf, docs, now, samples, draws);
    var plan := Plan(selectors, SeriesOf(x));
    var drawn :| DrawsFit(plan, drawn) && p == Run(l.shelf, now, plan, drawn, Begin(x));
    assert (samples + [x])[..|samples|] == samples && (samples + [x])[..|samples| + 1] == samples + [x];
    FilterOneMore(selectors, shelf, docs, now, samples + [x], |samples|, draws, drawn);
  }

  // ---------- ambiguous samples among the others ----------

  /**
   What a scrape has become so far: the unambiguous samples are what filtering them alone
   gives, cache entries included, whatever ambiguous samples there are among them; the
   documentation is that of all samples kept.
   */
  ghost predicate FilteredAmid(
    selectors: seq<Selector>, shelf: Shelf, now: nat, docs: map<string, string>, samples: seq<Sample>, l: Ledger) {
    && FilteredAlone(selectors, shelf, now, docs, samples, l)
    && Documented(docs, l)
    && (Clean(samples) ==> Clean(l.samples))
  }

  ghost predicate FilteredAlone(
    selectors: seq<Selector>, shelf: Shelf, now: nat, docs: map<string, string>, samples: seq<Sample>, l: Ledger) {
    exists d :: Filtered(selectors, shelf, now, docs, Unambiguous(samples), Ledger(l.shelf, d, Unambiguous(l.samples)))
  }

  /** What became of a sample: if ambiguous, something ambiguous, and else what the plan makes of it. */
  ghost predicate Processed(shelf: Shelf, now: nat, plan: seq<FilterAction>, start: Progress, p: Progress) {
    if Ambiguous(SeriesOf(start.sample)) then Ambiguous(SeriesOf(p.sample))
    else RunOn(shelf, now, plan, start, p) && SeriesOf(p.sample) == SeriesOf(start.sample)
  }

  /** The ledger after a sample, an ambiguous one leaving no trace among the unambiguous entries. */
  function EnterAmid(l: Ledger, docs: map<string, string>, now: nat, p: Progress): Ledger {
    var entered := Enter(l, docs, now, p);
    if Ambiguous(SeriesOf(p.sample)) then entered.(shelf := l.shelf) else entered
  }

  lemma {:induction false} AmidNothing(selectors: seq<Selector>, shelf: Shelf, now: nat, docs: map<string, string>)
    ensures FilteredAmid(selectors, shelf, now, docs, [], Ledger(shelf, map[], []))
  {
    FilteredNothing(selectors, shelf, now, docs);
    var l := Ledger(shelf, map[], []);
    assert Filtered(selectors, shelf, now, docs, Unambiguous([]), Ledger(l.shelf, map[], Unambiguous(l.samples)));
  }

  lemma {:induction false} AmidFurther(
    selectors: seq<Selector>, shelf: Shelf, now: nat, docs: map<string, string>, samples: seq<Sample>, x: Sample,
    l: Ledger, p: Progress)
    requires WellFiled(l.shelf) && FilteredAmid(selectors, shelf, now, docs, samples, l)
    requires Processed(l.shelf, now, Plan(selectors, SeriesOf(x)), Begin(x), p)
    ensures FilteredAmid(selectors, shelf, now, docs, samples + [x], EnterAmid(l, docs, now, p))
  {
    hide Filtered, RunOn, Plan, Ambiguous, Documented, Unambiguous, Clean;
    DocsEntered(l, docs, now, p);
    DocumentedAnyShelf(docs, Enter(l, docs, now, p), l.shelf);
    UnambiguousMore(samples, x);
    UnambiguousMore(l.samples, p.sample);
    var d :| Filtered(selectors, shelf, now, docs, Unambiguous(samples), Ledger(l.shelf, d, Unambiguous(l.samples)));
    if !Ambiguous(SeriesOf(x)) {
      var alone := Ledger(l.shelf, d, Unambiguous(l.samples));
      FilteredFurther(selectors, shelf, now, docs, Unambiguous(samples), x, alone, p);
      assert Enter(alone, docs, now, p)
        == Ledger(Enter(l, docs, now, p).shelf, Enter(alone, docs, now, p).docs,
          Unambiguous(Enter(l, docs, now, p).samples));
    } else {
      assert Unambiguous(samples + [x]) == Unambiguous(samples);
      assert Unambiguous(EnterAmid(l, docs, now, p).samples) == Unambiguous(l.samples);
    }
  }

  lemma {:induction false} DocumentedAnyShelf(docs: map<string, string>, l: Ledger, shelf: Shelf)
    requires Documented(docs, l)
    ensures Documented(docs, l.(shelf := shelf))
  {
  }

  /** With no ambiguous sample at all, filtering is exactly what the specification says. */
  lemma {:induction false} CleanFiltered(
    selectors: seq<Selector>, shelf: Shelf, now: nat, docs: map<string, string>, samples: seq<Sample>, l: Ledger)
    requires FilteredAmid(selectors, shelf, now, docs, samples, l) && Clean(samples)
    ensures Filtered(selectors, shelf, now, docs, samples, l)
  {
    CleanIsUnambiguous(samples);
    CleanIsUnambiguous(l.samples);
    var d :| Filtered(selectors, shelf, now, docs, Unambiguous(samples), Ledger(l.shelf, d, Unambiguous(l.samples)));
    FilteredIsDocumented(selectors, shelf, now, docs, samples, Ledger(l.shelf, d, l.samples));
    SameDocs(docs, l, Ledger(l.shelf, d, l.samples));
  }

  lemma {:induction false} FilteredIsDocumented(
    selectors: seq<Selector>, shelf: Shelf, now: nat, docs: map<string, string>, samples: seq<Sample>, l: Ledger)
    requires Filtered(selectors, shelf, now, docs, samples, l)
    ensures Documented(docs, l)
  {
    var draws :| ScrapeDrawsFit(selectors, samples, draws)
      && l == FilterSamples(selectors, shelf, docs, now, samples, draws);
    DocsFollowSamples(selectors, shelf, docs, now, samples, draws);
  }

  lemma {:induction false} SameDocs(docs: map<string, string>, l1: Ledger, l2: Ledger)
    requires Documented(docs, l1) && Documented(docs, l2) && l1.samples == l2.samples
    ensures l1.docs == l2.docs
  {
    assert forall m :: m in l1.docs <==> m in l2.docs;
    assert l1.docs.Keys == l2.docs.Keys;
  }

  class MetricsProxier {
    const selectors: seq<Selector>
    const cache: SampleCacheStore

    constructor (selectors: seq<Selector>)
      ensures this.selectors == selectors && fresh(cache) && cache.cache == map[] && cache.Consistent()
    {
      this.selectors := selectors;
      cache := new SampleCacheStore();
    }

    /** The values of the selector's source labels, joined. */
    method JoinLabelValues(sample: Sample, selector: Selector) returns (text: string)
      ensures text == LabelValues(SeriesOf(sample), selector)
      ensures selector.sourceLabels == ["__name__"] ==> text == sample.metric
    {
      var values: seq<string> := [];
      for i := 0 to |selector.sourceLabels|
        invariant |values| == i
        invariant forall k | 0 <= k < i :: values[k] == LabelValue(SeriesOf(sample), selector.sourceLabels[k])
      {
        values := values + [LabelValue(SeriesOf(sample), selector.sourceLabels[i])];
      }
      assert values == ValuesOf(SeriesOf(sample), selector.sourceLabels);
      text := Join(values, selector.separator);
      MatchedText(SeriesOf(sample), selector, "");
    }

    /** Noise within the amplitude, rounded to the quantum and added to every count. */
    method AddNoise(sample: Sample, amplitude: real, quantum: real) returns (noisy: Sample)
      requires amplitude > 0.0 && quantum != 0.0
      ensures noisy == sample.(value := noisy.value)
      ensures exists draw ::
        -amplitude <= draw < amplitude && Shifted(sample.value, noisy.value, Quantized(draw, quantum))
    {
      var wnd := amplitude;
      assert -wnd <= 0.0 < wnd;
      var randomness: real :| -wnd <= randomness < wnd;
      var quantized := Round(InQuanta(randomness, quantum)) as real * quantum;
      noisy := Sample(sample.metric, Perturb(sample.value, quantized), sample.labels, sample.timestamp);
      PerturbShifts(sample.value, Quantized(randomness, quantum), noisy.value);
    }

    /** One action on the current sample. */
    method ApplyAction(action: FilterAction, now: nat, start: Progress) returns (p: Progress)
      requires Usable(action) && cache.Consistent()
      ensures
        if Ambiguous(SeriesOf(start.sample)) then Ambiguous(SeriesOf(p.sample))
        else ActedOn(cache.View(), now, action, start, p)
    {
      hide Ambiguous, Find, Perturb, Quantized, Shifted;
      var sample, keep, mustCache := start.sample, start.keep, start.mustCache;
      ghost var draw := 0.0;
      match action {
        case Keep => keep := Some(true);
        case Drop => keep := Some(false);
        case ReduceTimeResolution(resolution) =>
          var got := cache.Get(sample, now, resolution);
          match got {
            case Some(cached) => sample := cached;
            case None => mustCache := true;
          }
        case AddAbsoluteNoise(amplitude, quantum) =>
          sample := AddNoise(sample, amplitude, quantum);
          draw :| -amplitude <= draw < amplitude
            && Shifted(start.sample.value, sample.value, Quantized(draw, quantum));
          PerturbShifts(start.sample.value, Quantized(draw, quantum), sample.value);
      }
      p := Progress(sample, keep, mustCache);
      assert !Ambiguous(SeriesOf(start.sample)) ==>
        InRange(action, draw) && p == Act(cache.View(), now, action, draw, start);
    }

    /** One selector on the current sample: its actions in turn, if it matches. */
    method ApplySelector(selector: Selector, now: nat, start: Progress) returns (p: Progress)
      requires cache.Consistent() && forall j | 0 <= j < |selector.actions| :: Usable(selector.actions[j])
      ensures
        var plan := if Selects(selector, SeriesOf(start.sample)) then selector.actions else [];
        Processed(cache.View(), now, plan, start, p)
    {
      hide Ambiguous, RunOn, ActedOn;
      var labelValues := JoinLabelValues(start.sample, selector);
      p := start;
      ghost var plan := if selector.matches(labelValues) then selector.actions else [];
      RunNothing(cache.View(), now, start);
      for j := 0 to |selector.actions|
        invariant |plan| == |selector.actions| || plan == []
        invariant Processed(cache.View(), now, plan[..if plan == [] then 0 else j], start, p)
      {
        if selector.matches(labelValues) {
          ghost var before := p;
          p := ApplyAction(selector.actions[j], now, p);
          assert plan[..j + 1] == plan[..j] + [plan[j]];
          if !Ambiguous(SeriesOf(start.sample)) {
            RunFurther(cache.View(), now, plan[..j], plan[j], start, before, p);
          }
        }
      }
      assert plan[..|plan|] == plan;
    }

    /** The whole plan of one sample: every selector in turn. */
    method ApplySelectors(sample: Sample, now: nat) returns (p: Progress)
      requires AllUsable(selectors) && cache.Consistent()
      ensures Processed(cache.View(), now, Plan(selectors, SeriesOf(sample)), Begin(sample), p)
    {
      hide Ambiguous, RunOn;
      p := Begin(sample);
      RunNothing(cache.View(), now, p);
      for i := 0 to |selectors|
        invariant Processed(cache.View(), now, Plan(selectors[..i], SeriesOf(sample)), Begin(sample), p)
      {
        ghost var before := p;
        p := ApplySelector(selectors[i], now, p);
        PlanOneMore(selectors, i, SeriesOf(sample));
        if !Ambiguous(SeriesOf(sample)) {
          ghost var next := if Selects(selectors[i], SeriesOf(sample)) then selectors[i].actions else [];
          RunsInTurn(cache.View(), now, Plan(selectors[..i], SeriesOf(sample)), next, Begin(sample), before, p);
        }
      }
      assert selectors[..|selectors|] == selectors;
    }

    /**
     One scrape, with the clock read before the cache is locked: the kept samples in order,
     the documentation they need, and the refreshed cache entries.
     */
    method ApplyFilters(series: Scrape, now: nat) returns (result: Scrape)
      requires AllUsable(selectors) && cache.Consistent()
      modifies cache
      ensures cache.Consistent()
      ensures FilteredAmid(selectors, old(cache.View()), now, series.docs, series.samples,
                           Ledger(cache.View(), result.docs, result.samples))
      ensures Clean(series.samples) ==>
        Filtered(selectors, old(cache.View()), now, series.docs, series.samples,
                 Ledger(cache.View(), result.docs, result.samples))
    {
      hide FilteredAmid, Filtered, Processed, Plan, Ambiguous, Clean;
      var samples: seq<Sample> := [];
      var docs: map<string, string> := map[];
      ghost var shelf := cache.View();
      AmidNothing(selectors, shelf, now, series.docs);
      for i := 0 to |series.samples|
        invariant cache.Consistent()
        invariant FilteredAmid(selectors, shelf, now, series.docs, series.samples[..i],
          Ledger(cache.View(), docs, samples))
      {
        var p := ApplySelectors(series.samples[i], now);
        AmidFurther(selectors, shelf, now, series.docs, series.samples[..i], series.samples[i],
          Ledger(cache.View(), docs, samples), p);
        assert series.samples[..i + 1] == series.samples[..i] + [series.samples[i]];
        if p.keep == Some(false) {
          continue;
        }
        if p.sample.metric !in docs && p.sample.metric in series.docs {
          docs := docs[p.sample.metric := series.docs[p.sample.metric]];
        }
        if p.mustCache {
          cache.Put(p.sample, now);
        }
        samples := samples + [p.sample];
      }
      assert series.samples[..|series.samples|] == series.samples;
      result := Scrape(docs, samples);
      if Clean(series.samples) {
        CleanFiltered(selectors, shelf, now, series.docs, series.samples, Ledger(cache.View(), docs, samples));
      }
    }
  }
}
