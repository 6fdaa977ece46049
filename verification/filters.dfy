/** The filter pipeline: what one scrape becomes, given the shelf of cached samples. */
module Filters {
  import opened Wrappers
  import opened Samples
  import opened TextOrder
  import opened SampleCache

  datatype FilterAction =
    | Keep
    | Drop
    | ReduceTimeResolution(resolution: nat)
    | AddAbsoluteNoise(amplitude: real, quantum: real)

  /** A regular expression is whatever set of texts it matches. */
  datatype Selector = Selector(
    sourceLabels: seq<string>,
    separator: string,
    matches: string -> bool,
    actions: seq<FilterAction>)

  /** An empty range or a zero quantum has no noise to draw. */
  predicate Usable(a: FilterAction) {
    a.AddAbsoluteNoise? ==> a.amplitude > 0.0 && a.quantum != 0.0
  }

  ghost predicate AllUsable(selectors: seq<Selector>) {
    forall i, j | 0 <= i < |selectors| && 0 <= j < |selectors[i].actions| :: Usable(selectors[i].actions[j])
  }

  function LabelValue(s: Series, name: string): string {
    if name == NAME then s.metric
    else if name in s.labels then s.labels[name]
    else ""
  }

  function ValuesOf(s: Series, names: seq<string>): seq<string> {
    seq(|names|, i requires 0 <= i < |names| => LabelValue(s, names[i]))
  }

  function LabelValues(s: Series, sel: Selector): string {
    Join(ValuesOf(s, sel.sourceLabels), sel.separator)
  }

  predicate Selects(sel: Selector, s: Series) {
    sel.matches(LabelValues(s, sel))
  }

  /**
   The text a selector matches: the values of its source labels, the metric standing for
   `__name__` and nothing for an absent label, with the separator between any two.
   */
  lemma {:induction false} MatchedText(s: Series, sel: Selector, n: string)
    ensures LabelValues(s, sel.(sourceLabels := [])) == ""
    ensures LabelValues(s, sel.(sourceLabels := ["__name__"])) == s.metric
    ensures n != "__name__" && n in s.labels ==> LabelValues(s, sel.(sourceLabels := [n])) == s.labels[n]
    ensures n != "__name__" && n !in s.labels ==> LabelValues(s, sel.(sourceLabels := [n])) == ""
    ensures sel.sourceLabels != [] ==>
      LabelValues(s, sel.(sourceLabels := sel.sourceLabels + [n]))
      == LabelValues(s, sel) + sel.separator + LabelValues(s, sel.(sourceLabels := [n]))
  {
    assert ValuesOf(s, sel.sourceLabels + [n]) == ValuesOf(s, sel.sourceLabels) + [LabelValue(s, n)];
    assert ValuesOf(s, [n]) == [LabelValue(s, n)] && ValuesOf(s, ["__name__"]) == [s.metric];
    if sel.sourceLabels != [] {
      JoinMore(ValuesOf(s, sel.sourceLabels), LabelValue(s, n), sel.separator);
    }
  }

  /** With the default source label, a lone selector acts exactly on the metrics its expression matches. */
  lemma {:induction false} DefaultSelector(s: Series, sel: Selector)
    requires sel.sourceLabels == ["__name__"]
    ensures Plan([sel], s) == if sel.matches(s.metric) then sel.actions else []
  {
    MatchedText(s, sel, "");
    assert sel.(sourceLabels := ["__name__"]) == sel;
    assert [sel][..0] == [];
  }

  /** The actions that apply to a series: those of the selectors that match it, in order. */
  function Plan(selectors: seq<Selector>, s: Series): seq<FilterAction> {
    if selectors == [] then []
    else
      var last := selectors[|selectors| - 1];
      Plan(selectors[..|selectors| - 1], s) + (if Selects(last, s) then last.actions else [])
  }

  /** To the nearest integer; halves round away from zero. */
  function Round(x: real): (r: int)
    ensures -0.5 <= r as real - x <= 0.5
    ensures r as real - x == 0.5 ==> x > 0.0
    ensures r as real - x == -0.5 ==> x < 0.0
  {
    if x >= 0.0 then (x + 0.5).Floor else -((-x + 0.5).Floor)
  }

  function InQuanta(x: real, quantum: real): real
    requires quantum != 0.0
  {
    x * (1.0 / quantum)
  }

  function Quantized(draw: real, quantum: real): real
    requires quantum != 0.0
  {
    Round(InQuanta(draw, quantum)) as real * quantum
  }

  function Perturb(v: Value, offset: real): Value {
    match v
    case Untyped(c) => Untyped(c + offset)
    case Counter(c) => Counter(c + offset)
    case Gauge(c) => Gauge(c + offset)
    case Histogram(hc) =>
      Histogram(seq(|hc|, i requires 0 <= i < |hc| => BucketCount(hc[i].lessThan, hc[i].count + offset)))
    case Summary(qc) =>
      Summary(seq(|qc|, i requires 0 <= i < |qc| => QuantileCount(qc[i].quantile, qc[i].count + offset)))
  }

  /** Adding an offset shifts every number by it, and is the only way to. */
  lemma {:induction false} PerturbShifts(v: Value, offset: real, w: Value)
    ensures Shifted(v, w, offset) <==> w == Perturb(v, offset)
  {
    var p := Perturb(v, offset);
    assert forall i | 0 <= i < |Numbers(v)| :: Numbers(p)[i] == Numbers(v)[i] + offset;
    if Shifted(v, w, offset) {
      assert forall i | 0 <= i < |Numbers(v)| :: Numbers(w)[i] == Numbers(p)[i];
      match v {
        case Histogram(hs) =>
          forall i | 0 <= i < |hs| ensures w.buckets[i] == p.buckets[i] {
            assert Numbers(w)[i] == Numbers(p)[i];
          }
          assert w.buckets == p.buckets;
        case Summary(qs) =>
          forall i | 0 <= i < |qs| ensures w.quantiles[i] == p.quantiles[i] {
            assert Numbers(w)[i] == Numbers(p)[i];
          }
          assert w.quantiles == p.quantiles;
        case _ => assert Numbers(w)[0] == Numbers(p)[0];
      }
    }
  }

  lemma {:induction false} ShiftedTwice(u: Value, v: Value, w: Value, x: real, y: real)
    requires Shifted(u, v, x) && Shifted(v, w, y)
    ensures Shifted(u, w, x + y)
  {
    assert forall i | 0 <= i < |Numbers(u)| :: Numbers(w)[i] - Numbers(v)[i] == y && Numbers(v)[i] - Numbers(u)[i] == x;
  }

  lemma {:induction false} ShiftedNot(v: Value)
    ensures Shifted(v, v, 0.0)
  {
  }

  /** A sample on its way through its plan. */
  datatype Progress = Progress(sample: Sample, keep: Option<bool>, mustCache: bool)

  function Begin(sample: Sample): Progress {
    Progress(sample, None, false)
  }

  function Act(shelf: Shelf, now: nat, a: FilterAction, draw: real, p: Progress): Progress
    requires Usable(a)
  {
    match a
    case Keep => p.(keep := Some(true))
    case Drop => p.(keep := Some(false))
    case ReduceTimeResolution(resolution) =>
      (match Find(shelf, SeriesOf(p.sample), now, resolution)
       case Some(got) => p.(sample := got)
       case None => p.(mustCache := true))
    case AddAbsoluteNoise(amplitude, quantum) =>
      p.(sample := p.sample.(value := Perturb(p.sample.value, Quantized(draw, quantum))))
  }

  /** The plan run from first to last; action `i` uses draw `i`. */
  function Run(shelf: Shelf, now: nat, plan: seq<FilterAction>, draws: seq<real>, p: Progress): Progress
    requires |plan| == |draws| && forall i | 0 <= i < |plan| :: Usable(plan[i])
    decreases |plan|
  {
    if plan == [] then p
    else
      var n := |plan| - 1;
      Act(shelf, now, plan[n], draws[n], Run(shelf, now, plan[..n], draws[..n], p))
  }

  lemma {:induction false} RunOneMore(
    shelf: Shelf, now: nat, plan: seq<FilterAction>, draws: seq<real>, a: FilterAction, draw: real, p: Progress)
    requires |plan| == |draws| && (forall i | 0 <= i < |plan| :: Usable(plan[i])) && Usable(a)
    ensures Run(shelf, now, plan + [a], draws + [draw], p) == Act(shelf, now, a, draw, Run(shelf, now, plan, draws, p))
  {
    assert (plan + [a])[..|plan|] == plan;
    assert (draws + [draw])[..|plan|] == draws;
  }

  lemma {:induction false} RunConcat(
    shelf: Shelf, now: nat, plan1: seq<FilterAction>, draws1: seq<real>, plan2: seq<FilterAction>, draws2: seq<real>,
    p: Progress)
    requires |plan1| == |draws1| && (forall i | 0 <= i < |plan1| :: Usable(plan1[i]))
    requires |plan2| == |draws2| && (forall i | 0 <= i < |plan2| :: Usable(plan2[i]))
    ensures Run(shelf, now, plan1 + plan2, draws1 + draws2, p)
         == Run(shelf, now, plan2, draws2, Run(shelf, now, plan1, draws1, p))
    decreases |plan2|
  {
    if plan2 == [] {
      assert plan1 + plan2 == plan1 && draws1 + draws2 == draws1;
    } else {
      var n := |plan2| - 1;
      RunConcat(shelf, now, plan1, draws1, plan2[..n], draws2[..n], p);
      assert plan1 + plan2 == (plan1 + plan2[..n]) + [plan2[n]];
      assert draws1 + draws2 == (draws1 + draws2[..n]) + [draws2[n]];
      RunOneMore(shelf, now, plan1 + plan2[..n], draws1 + draws2[..n], plan2[n], draws2[n], p);
    }
  }

  predicate Kept(p: Progress) {
    p.keep != Some(false)
  }

  /** Every draw lies in the range asked for. */
  predicate DrawsFit(plan: seq<FilterAction>, draws: seq<real>) {
    && |plan| == |draws|
    && (forall i | 0 <= i < |plan| :: Usable(plan[i]))
    && (forall i | 0 <= i < |plan| && plan[i].AddAbsoluteNoise? :: -plan[i].amplitude <= draws[i] < plan[i].amplitude)
  }

  /** What a scrape has become so far. */
  datatype Ledger = Ledger(shelf: Shelf, docs: map<string, string>, samples: seq<Sample>)

  function Store(shelf: Shelf, now: nat, p: Progress): Shelf {
    if Kept(p) && p.mustCache then shelf[SeriesOf(p.sample) := Entry(p.sample, now)] else shelf
  }

  function Enter(l: Ledger, docs: map<string, string>, now: nat, p: Progress): Ledger {
    if !Kept(p) then l
    else
      Ledger(
        Store(l.shelf, now, p),
        if p.sample.metric !in l.docs && p.sample.metric in docs
        then l.docs[p.sample.metric := docs[p.sample.metric]]
        else l.docs,
        l.samples + [p.sample])
  }

  predicate ScrapeDrawsFit(selectors: seq<Selector>, samples: seq<Sample>, draws: seq<seq<real>>) {
    |samples| == |draws| && forall i | 0 <= i < |samples| :: DrawsFit(Plan(selectors, SeriesOf(samples[i])), draws[i])
  }

  /** All samples, first to last, each seeing what the earlier ones stored. */
  function FilterSamples(
    selectors: seq<Selector>, shelf: Shelf, docs: map<string, string>, now: nat, samples: seq<Sample>,
    draws: seq<seq<real>>): Ledger
    requires ScrapeDrawsFit(selectors, samples, draws)
    decreases |samples|
  {
    if samples == [] then Ledger(shelf, map[], [])
    else
      var n := |samples| - 1;
      var before := FilterSamples(selectors, shelf, docs, now, samples[..n], draws[..n]);
      Enter(before, docs, now, Outcome(selectors, before.shelf, now, samples[n], draws[n]))
  }

  function Outcome(selectors: seq<Selector>, shelf: Shelf, now: nat, sample: Sample, draws: seq<real>): Progress
    requires DrawsFit(Plan(selectors, SeriesOf(sample)), draws)
  {
    Run(shelf, now, Plan(selectors, SeriesOf(sample)), draws, Begin(sample))
  }

  function FilterScrape(selectors: seq<Selector>, shelf: Shelf, now: nat, scrape: Scrape, draws: seq<seq<real>>): Ledger
    requires ScrapeDrawsFit(selectors, scrape.samples, draws)
  {
    FilterSamples(selectors, shelf, scrape.docs, now, scrape.samples, draws)
  }

  // ---------- one step further ----------

  lemma {:induction false} PlanOneMore(selectors: seq<Selector>, i: nat, s: Series)
    requires i < |selectors|
    ensures Plan(selectors[..i + 1], s)
      == Plan(selectors[..i], s) + (if Selects(selectors[i], s) then selectors[i].actions else [])
  {
    assert selectors[..i + 1][..i] == selectors[..i];
  }

  lemma {:induction false} DrawsConcat(
    plan1: seq<FilterAction>, draws1: seq<real>, plan2: seq<FilterAction>, draws2: seq<real>)
    requires DrawsFit(plan1, draws1) && DrawsFit(plan2, draws2)
    ensures DrawsFit(plan1 + plan2, draws1 + draws2)
  {
  }

  lemma {:induction false} FilterOneMore(
    selectors: seq<Selector>, shelf: Shelf, docs: map<string, string>, now: nat,
    samples: seq<Sample>, i: nat, draws: seq<seq<real>>, drawn: seq<real>)
    requires i < |samples| && ScrapeDrawsFit(selectors, samples[..i], draws)
    requires DrawsFit(Plan(selectors, SeriesOf(samples[i])), drawn)
    ensures ScrapeDrawsFit(selectors, samples[..i + 1], draws + [drawn])
    ensures
      var before := FilterSamples(selectors, shelf, docs, now, samples[..i], draws);
      FilterSamples(selectors, shelf, docs, now, samples[..i + 1], draws + [drawn])
      == Enter(before, docs, now, Outcome(selectors, before.shelf, now, samples[i], drawn))
  {
    assert samples[..i + 1][..i] == samples[..i];
    assert (draws + [drawn])[..i] == draws;
  }

  // ---------- plans stay with their series ----------

  lemma {:induction false} ActKeepsSeries(shelf: Shelf, now: nat, a: FilterAction, draw: real, p: Progress)
    requires WellFiled(shelf) && Usable(a)
    ensures SeriesOf(Act(shelf, now, a, draw, p).sample) == SeriesOf(p.sample)
  {
  }

  lemma {:induction false} RunKeepsSeries(
    shelf: Shelf, now: nat, plan: seq<FilterAction>, draws: seq<real>, p: Progress)
    requires WellFiled(shelf) && |plan| == |draws| && forall i | 0 <= i < |plan| :: Usable(plan[i])
    ensures SeriesOf(Run(shelf, now, plan, draws, p).sample) == SeriesOf(p.sample)
    decreases |plan|
  {
    if plan != [] {
      var n := |plan| - 1;
      RunKeepsSeries(shelf, now, plan[..n], draws[..n], p);
      ActKeepsSeries(shelf, now, plan[n], draws[n], Run(shelf, now, plan[..n], draws[..n], p));
    }
  }

  lemma {:induction false} FilteringKeepsShelfFiled(
    selectors: seq<Selector>, shelf: Shelf, docs: map<string, string>, now: nat, samples: seq<Sample>,
    draws: seq<seq<real>>)
    requires ScrapeDrawsFit(selectors, samples, draws) && WellFiled(shelf)
    ensures WellFiled(FilterSamples(selectors, shelf, docs, now, samples, draws).shelf)
    decreases |samples|
  {
    if samples != [] {
      var n := |samples| - 1;
      FilteringKeepsShelfFiled(selectors, shelf, docs, now, samples[..n], draws[..n]);
    }
  }
}
