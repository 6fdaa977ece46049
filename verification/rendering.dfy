/** Rendering a scrape: lines per sample, samples by metric, documentation once per metric. */
module Rendering {
  import opened Wrappers
  import opened Samples
  import opened TextOrder
  import opened SeriesKey
  import opened LabelText
  import opened SampleCache
  import opened Filters
  import opened FilterLaws

  /** How numbers are printed: values in scientific form, bounds and quantiles plainly. */
  datatype Printer = Printer(scientific: real -> string, plain: real -> string)

  function BoundText(pr: Printer, b: Bound): string {
    match b
    case PosInf => "+Inf"
    case NegInf => "-Inf"
    case Finite(x) => pr.plain(x)
  }

  /** The numbers of a value, each with the extra label of its line. */
  function Points(pr: Printer, v: Value): seq<(Option<LabelPair>, string)> {
    match v
    case Untyped(x) => [(None, pr.scientific(x))]
    case Counter(x) => [(None, pr.scientific(x))]
    case Gauge(x) => [(None, pr.scientific(x))]
    case Histogram(hs) =>
      seq(|hs|, i requires 0 <= i < |hs| =>
        (Some(LabelPair("le", BoundText(pr, hs[i].lessThan))), pr.scientific(hs[i].count)))
    case Summary(qs) =>
      seq(|qs|, i requires 0 <= i < |qs| =>
        (Some(LabelPair("quantile", pr.plain(qs[i].quantile))), pr.scientific(qs[i].count)))
  }

  ghost function Line(metric: string, labels: Labels, extra: Option<LabelPair>, number: string): string {
    metric + LabelsText(labels, extra) + " " + number
  }

  /** The text of a bound: the two infinities are spelled out. */
  ghost predicate SpellsBound(pr: Printer, b: Bound, text: string) {
    match b
    case PosInf => text == "+Inf"
    case NegInf => text == "-Inf"
    case Finite(x) => text == pr.plain(x)
  }

  /** The line of a bucket: its bound as the label `le`, its count as the number. */
  ghost predicate BucketLine(pr: Printer, s: Sample, b: BucketCount, line: string) {
    exists bound ::
      && SpellsBound(pr, b.lessThan, bound)
      && line == s.metric + LabelsText(s.labels, Some(LabelPair("le", bound))) + " " + pr.scientific(b.count)
  }

  /**
   The lines of a sample: one without an extra label for a plain number, one per bucket with
   its bound as `le`, one per quantile with it as `quantile`, each ending in the number.
   */
  ghost predicate LinesOf(pr: Printer, s: Sample, lines: seq<string>) {
    match s.value
    case Untyped(x) => lines == [s.metric + LabelsText(s.labels, None) + " " + pr.scientific(x)]
    case Counter(x) => lines == [s.metric + LabelsText(s.labels, None) + " " + pr.scientific(x)]
    case Gauge(x) => lines == [s.metric + LabelsText(s.labels, None) + " " + pr.scientific(x)]
    case Histogram(hs) =>
      && |lines| == |hs|
      && forall i | 0 <= i < |hs| :: BucketLine(pr, s, hs[i], lines[i])
    case Summary(qs) =>
      && |lines| == |qs|
      && forall i | 0 <= i < |qs| ::
        lines[i] == s.metric + LabelsText(s.labels, Some(LabelPair("quantile", pr.plain(qs[i].quantile))))
          + " " + pr.scientific(qs[i].count)
  }

  method RenderSample(pr: Printer, sample: Sample) returns (lines: seq<string>)
    ensures LinesOf(pr, sample, lines)
  {
    var points := Points(pr, sample.value);
    lines := [];
    for i := 0 to |points|
      invariant |lines| == i
      invariant forall k | 0 <= k < i :: lines[k] == Line(sample.metric, sample.labels, points[k].0, points[k].1)
    {
      var labelText := RenderLabels(sample.labels, points[i].0);
      lines := lines + [sample.metric + labelText + " " + points[i].1];
    }
    PointsGiveLines(pr, sample, lines);
  }

  lemma {:induction false} PointsGiveLines(pr: Printer, s: Sample, lines: seq<string>)
    requires |lines| == |Points(pr, s.value)|
    requires forall i | 0 <= i < |lines| ::
      lines[i] == Line(s.metric, s.labels, Points(pr, s.value)[i].0, Points(pr, s.value)[i].1)
    ensures LinesOf(pr, s, lines)
  {
    hide LabelsText;
    if s.value.Histogram? {
      var hs := s.value.buckets;
      forall i | 0 <= i < |hs| ensures BucketLine(pr, s, hs[i], lines[i]) {
        assert SpellsBound(pr, hs[i].lessThan, BoundText(pr, hs[i].lessThan));
        assert Points(pr, s.value)[i].0 == Some(LabelPair("le", BoundText(pr, hs[i].lessThan)));
      }
    }
  }

  predicate MetricOk(metric: string) {
    '{' !in metric && ' ' !in metric
  }

  /** Printed numbers holding no quote, a line can be read back: metric, labels, extra label and printed number. */
  lemma {:induction false} LineTells(
    m1: string, l1: Labels, e1: Option<LabelPair>, n1: string, m2: string, l2: Labels, e2: Option<LabelPair>,
    n2: string)
    requires MetricOk(m1) && MetricOk(m2) && LabelsOk(l1) && LabelsOk(l2) && ExtraOk(e1) && ExtraOk(e2)
    requires (Unquoted(n1) && Unquoted(n2)) || (LabelsPlain(l1) && LabelsPlain(l2))
    ensures Line(m1, l1, e1, n1) == Line(m2, l2, e2, n2) <==> m1 == m2 && l1 == l2 && e1 == e2 && n1 == n2
  {
    if Line(m1, l1, e1, n1) == Line(m2, l2, e2, n2) {
      var x1, x2 := LabelsText(l1, e1) + (" " + n1), LabelsText(l2, e2) + (" " + n2);
      Regroup(m1, LabelsText(l1, e1), n1);
      Regroup(m2, LabelsText(l2, e2), n2);
      StartsSo(l1, e1, n1);
      StartsSo(l2, e2, n2);
      MetricTells(m1, x1, m2, x2);
      NumberTells(l1, e1, n1, l2, e2, n2);
    }
  }

  lemma {:induction false} NumberTells(
    l1: Labels, e1: Option<LabelPair>, n1: string, l2: Labels, e2: Option<LabelPair>, n2: string)
    requires LabelsOk(l1) && LabelsOk(l2) && ExtraOk(e1) && ExtraOk(e2)
    requires (Unquoted(n1) && Unquoted(n2)) || (LabelsPlain(l1) && LabelsPlain(l2))
    requires LabelsText(l1, e1) + (" " + n1) == LabelsText(l2, e2) + (" " + n2)
    ensures l1 == l2 && e1 == e2 && n1 == n2
  {
    LabelsTextTells(l1, e1, " " + n1, l2, e2, " " + n2);
    assert n1 == (" " + n1)[1..] && n2 == (" " + n2)[1..];
  }

  lemma {:induction false} Regroup(metric: string, labelsText: string, number: string)
    ensures metric + labelsText + " " + number == metric + (labelsText + (" " + number))
  {
  }

  lemma {:induction false} StartsSo(labels: Labels, extra: Option<LabelPair>, number: string)
    ensures
      var rest := LabelsText(labels, extra) + (" " + number);
      rest[0] == '{' || rest[0] == ' '
  {
  }

  lemma {:induction false} MetricTells(m1: string, x1: string, m2: string, x2: string)
    requires MetricOk(m1) && MetricOk(m2) && x1 != [] && x2 != []
    requires (x1[0] == '{' || x1[0] == ' ') && (x2[0] == '{' || x2[0] == ' ')
    requires m1 + x1 == m2 + x2
    ensures m1 == m2 && x1 == x2
  {
    var text := m1 + x1;
    assert text[|m1|] == x1[0] && text[|m2|] == x2[0];
    assert forall i | 0 <= i < |m1| :: text[i] == m1[i];
    assert forall i | 0 <= i < |m2| :: text[i] == m2[i];
    assert |m1| == |m2|;
    assert m1 == text[..|m1|] == m2;
    assert x1 == text[|m1|..] == x2;
  }

  // ---------- a whole scrape ----------

  datatype Header = Header(metric: string, help: string, typeName: string)

  /** A sample in the output, with the documentation lines right before it, if any. */
  datatype Block = Block(header: Option<Header>, sample: Sample)

  const METRIC_OF: Sample -> string := (s: Sample) => s.metric

  function TypeName(v: Value): string {
    match v
    case Untyped(_) => "untyped"
    case Counter(_) => "counter"
    case Gauge(_) => "gauge"
    case Histogram(_) => "histogram"
    case Summary(_) => "summary"
  }

  function SamplesOf(blocks: seq<Block>): seq<Sample> {
    seq(|blocks|, i requires 0 <= i < |blocks| => blocks[i].sample)
  }

  predicate Seen(blocks: seq<Block>, m: string) {
    exists j | 0 <= j < |blocks| :: blocks[j].sample.metric == m
  }

  /** No earlier block has the metric of block `i`. */
  predicate FirstOfMetric(blocks: seq<Block>, i: nat)
    requires i < |blocks|
  {
    !Seen(blocks[..i], blocks[i].sample.metric)
  }

  lemma {:induction false} SeenMore(blocks: seq<Block>, b: Block, m: string)
    ensures Seen(blocks + [b], m) <==> Seen(blocks, m) || b.sample.metric == m
  {
    if j :| 0 <= j < |blocks| && blocks[j].sample.metric == m {
      assert (blocks + [b])[j].sample.metric == m;
    }
    if b.sample.metric == m {
      assert (blocks + [b])[|blocks|].sample.metric == m;
    }
  }

  /** The word for the kind of a value. */
  ghost predicate NamesKind(word: string, v: Value) {
    && (v.Untyped? ==> word == "untyped") && (v.Counter? ==> word == "counter") && (v.Gauge? ==> word == "gauge")
    && (v.Histogram? ==> word == "histogram") && (v.Summary? ==> word == "summary")
  }

  /** The first block of a documented metric has its documentation, and no other block has any. */
  ghost predicate HeaderOk(docs: map<string, string>, blocks: seq<Block>, i: nat)
    requires i < |blocks|
  {
    var s := blocks[i].sample;
    match blocks[i].header
    case None => !(s.metric in docs && FirstOfMetric(blocks, i))
    case Some(h) =>
      && s.metric in docs && FirstOfMetric(blocks, i)
      && h.metric == s.metric && h.help == docs[s.metric] && NamesKind(h.typeName, s.value)
  }

  ghost predicate RenderedLines(pr: Printer, s: Sample, text: string) {
    exists lines: seq<string> :: LinesOf(pr, s, lines) && text == Join(lines, "\n")
  }

  function HeaderText(h: Header): string {
    "# HELP " + h.metric + " " + h.help + "\n# TYPE " + h.metric + " " + h.typeName + "\n"
  }

  /** The lines of the sample, after the help line and the type line of its metric if there is a header. */
  ghost predicate BlockText(pr: Printer, b: Block, text: string) {
    exists body :: RenderedLines(pr, b.sample, body)
      && match b.header
         case None => text == body
         case Some(h) =>
           text == "# HELP " + h.metric + " " + h.help + "\n" + ("# TYPE " + h.metric + " " + h.typeName + "\n") + body
  }

  ghost predicate AllTexts(pr: Printer, blocks: seq<Block>, parts: seq<string>) {
    |parts| == |blocks| && forall i | 0 <= i < |parts| :: BlockText(pr, blocks[i], parts[i])
  }

  ghost predicate AllHeadersOk(docs: map<string, string>, blocks: seq<Block>) {
    forall i | 0 <= i < |blocks| :: HeaderOk(docs, blocks, i)
  }

  /** What is left of the documentation: that of the metrics not seen yet. */
  ghost predicate HelpLeft(docs: map<string, string>, blocks: seq<Block>, help: map<string, string>) {
    && (forall m :: m in help <==> m in docs && !Seen(blocks, m))
    && (forall m | m in help :: help[m] == docs[m])
  }

  /** One sample: its documentation is taken out of `help` and put before its lines. */
  method RenderBlock(pr: Printer, sample: Sample, help: map<string, string>)
    returns (text: string, help': map<string, string>, ghost b: Block)
    ensures BlockText(pr, b, text) && b.sample == sample
    ensures help' == help - {sample.metric}
    ensures b.header == if sample.metric in help
      then Some(Header(sample.metric, help[sample.metric], TypeName(sample.value))) else None
  {
    var lines := RenderSample(pr, sample);
    var body := Join(lines, "\n");
    assert RenderedLines(pr, sample, body);
    help' := help - {sample.metric};
    if sample.metric in help {
      var h := Header(sample.metric, help[sample.metric], TypeName(sample.value));
      b := Block(Some(h), sample);
      text := HeaderText(h) + body;
    } else {
      b := Block(None, sample);
      text := body;
    }
  }

  lemma {:induction false} OneMoreText(pr: Printer, blocks: seq<Block>, parts: seq<string>, b: Block, part: string)
    requires AllTexts(pr, blocks, parts) && BlockText(pr, b, part)
    ensures AllTexts(pr, blocks + [b], parts + [part])
    ensures SamplesOf(blocks + [b]) == SamplesOf(blocks) + [b.sample]
  {
    hide BlockText;
  }

  /** The samples rendered so far, and what is left of the documentation. */
  ghost predicate SoFar(
    pr: Printer, docs: map<string, string>, done: seq<Sample>, blocks: seq<Block>, help: map<string, string>,
    rendered: seq<string>) {
    && SamplesOf(blocks) == done && AllTexts(pr, blocks, rendered)
    && AllHeadersOk(docs, blocks) && HelpLeft(docs, blocks, help)
  }

  lemma {:induction false} OneFurther(
    pr: Printer, docs: map<string, string>, done: seq<Sample>, blocks: seq<Block>, help: map<string, string>,
    rendered: seq<string>,
    b: Block, part: string)
    requires SoFar(pr, docs, done, blocks, help, rendered) && BlockText(pr, b, part)
    requires b.header == if b.sample.metric in help
      then Some(Header(b.sample.metric, help[b.sample.metric], TypeName(b.sample.value))) else None
    ensures SoFar(pr, docs, done + [b.sample], blocks + [b], help - {b.sample.metric}, rendered + [part])
  {
    OneMoreBlock(docs, blocks, help, b);
    OneMoreText(pr, blocks, rendered, b, part);
  }

  lemma {:induction false} NothingYet(pr: Printer, docs: map<string, string>)
    ensures SoFar(pr, docs, [], [], docs, [])
  {
  }

  /** The next sample of the sorted list. */
  method RenderNext(
    pr: Printer, ghost docs: map<string, string>, ghost done: seq<Sample>, sample: Sample,
    ghost blocks: seq<Block>, help: map<string, string>, rendered: seq<string>)
    returns (ghost blocks': seq<Block>, help': map<string, string>, rendered': seq<string>)
    requires SoFar(pr, docs, done, blocks, help, rendered)
    ensures SoFar(pr, docs, done + [sample], blocks', help', rendered')
  {
    ghost var b: Block;
    var part;
    part, help', b := RenderBlock(pr, sample, help);
    OneFurther(pr, docs, done, blocks, help, rendered, b, part);
    blocks', rendered' := blocks + [b], rendered + [part];
  }

  /** The sorted samples one by one, with what is left of the documentation. */
  method RenderSorted(pr: Printer, docs: map<string, string>, sorted: seq<Sample>)
    returns (rendered: seq<string>, ghost blocks: seq<Block>, ghost left: map<string, string>)
    ensures SoFar(pr, docs, sorted, blocks, left, rendered)
  {
    hide SoFar;
    var help := docs;
    rendered, blocks := [], [];
    NothingYet(pr, docs);
    ghost var done: seq<Sample> := [];
    for i := 0 to |sorted|
      invariant done == sorted[..i]
      invariant SoFar(pr, docs, done, blocks, help, rendered)
    {
      blocks, help, rendered := RenderNext(pr, docs, done, sorted[i], blocks, help, rendered);
      done := done + [sorted[i]];
    }
    assert done == sorted;
    left := help;
  }

  /** The blocks hold the samples of the scrape, sorted by metric and otherwise in their order. */
  ghost predicate Arranged(scrape: Scrape, blocks: seq<Block>) {
    && multiset(SamplesOf(blocks)) == multiset(scrape.samples)
    && StablySorted(METRIC_OF, scrape.samples, SamplesOf(blocks))
    && AllHeadersOk(scrape.docs, blocks)
  }

  /** The text is that of the blocks, each on lines of its own. */
  ghost predicate Spells(pr: Printer, blocks: seq<Block>, text: string) {
    exists parts :: AllTexts(pr, blocks, parts) && text == Join(parts, "\n") + "\n"
  }

  method RenderScrapeData(pr: Printer, scrape: Scrape) returns (text: string)
    ensures exists blocks :: Arranged(scrape, blocks) && Spells(pr, blocks, text)
  {
    var sorted := SortStable(METRIC_OF, scrape.samples);
    var rendered: seq<string>;
    ghost var blocks: seq<Block>;
    ghost var left: map<string, string>;
    rendered, blocks, left := RenderSorted(pr, scrape.docs, sorted);
    text := Join(rendered, "\n") + "\n";
    assert Arranged(scrape, blocks) && Spells(pr, blocks, text);
  }

  lemma {:induction false} OneMoreBlock(
    docs: map<string, string>, blocks: seq<Block>, help: map<string, string>, b: Block)
    requires AllHeadersOk(docs, blocks) && HelpLeft(docs, blocks, help)
    requires b.header == if b.sample.metric in help
      then Some(Header(b.sample.metric, help[b.sample.metric], TypeName(b.sample.value))) else None
    ensures AllHeadersOk(docs, blocks + [b])
    ensures HelpLeft(docs, blocks + [b], help - {b.sample.metric})
  {
    HeadersStay(docs, blocks, b);
    assert (blocks + [b])[..|blocks|] == blocks;
    assert HeaderOk(docs, blocks + [b], |blocks|);
    forall m ensures m in help - {b.sample.metric} <==> m in docs && !Seen(blocks + [b], m) {
      SeenMore(blocks, b, m);
    }
  }

  lemma {:induction false} HeadersStay(docs: map<string, string>, blocks: seq<Block>, b: Block)
    requires forall k | 0 <= k < |blocks| :: HeaderOk(docs, blocks, k)
    ensures forall k | 0 <= k < |blocks| :: HeaderOk(docs, blocks + [b], k)
  {
    forall k | 0 <= k < |blocks| ensures HeaderOk(docs, blocks + [b], k) {
      assert HeaderOk(docs, blocks, k);
      assert (blocks + [b])[..k] == blocks[..k];
    }
  }

  /** Samples of one metric stand together. */
  lemma {:induction false} MetricsContiguous(scrape: Scrape, blocks: seq<Block>, i: nat, j: nat, k: nat)
    requires Arranged(scrape, blocks) && i < j < k < |blocks|
    requires blocks[i].sample.metric == blocks[k].sample.metric
    ensures blocks[j].sample.metric == blocks[i].sample.metric
  {
    var samples := SamplesOf(blocks);
    assert Leq(METRIC_OF(samples[i]), METRIC_OF(samples[j]));
    assert Leq(METRIC_OF(samples[j]), METRIC_OF(samples[k]));
    LeqAntisymmetric(samples[i].metric, samples[j].metric);
  }

  lemma {:induction false} FirstExists(blocks: seq<Block>, i: nat) returns (f: nat)
    requires i < |blocks|
    ensures f <= i && blocks[f].sample.metric == blocks[i].sample.metric && FirstOfMetric(blocks, f)
    decreases i
  {
    if FirstOfMetric(blocks, i) {
      f := i;
    } else {
      var j :| 0 <= j < i && blocks[..i][j].sample.metric == blocks[i].sample.metric;
      f := FirstExists(blocks, j);
    }
  }

  ghost predicate HeadedAt(blocks: seq<Block>, i: nat, m: string) {
    i < |blocks| && blocks[i].header.Some? && blocks[i].header.value.metric == m
  }

  /**
   Documentation exactly once: a metric has one header, right before its first sample, if it
   has a sample and is documented, and none otherwise.
   */
  lemma {:induction false} HeaderOnce(scrape: Scrape, blocks: seq<Block>, m: string)
    requires Arranged(scrape, blocks)
    ensures (exists i: nat :: HeadedAt(blocks, i, m)) <==>
      m in scrape.docs && exists i :: 0 <= i < |blocks| && blocks[i].sample.metric == m
    ensures forall i: nat, j: nat | HeadedAt(blocks, i, m) && HeadedAt(blocks, j, m) :: i == j
    ensures forall i: nat | HeadedAt(blocks, i, m) ::
      && blocks[i].sample.metric == m && FirstOfMetric(blocks, i)
      && m in scrape.docs && blocks[i].header.value.help == scrape.docs[m]
      && NamesKind(blocks[i].header.value.typeName, blocks[i].sample.value)
  {
    forall i: nat | HeadedAt(blocks, i, m)
      ensures blocks[i].sample.metric == m && FirstOfMetric(blocks, i) && m in scrape.docs
      ensures blocks[i].header.value.help == scrape.docs[m]
      ensures NamesKind(blocks[i].header.value.typeName, blocks[i].sample.value)
    {
      assert HeaderOk(scrape.docs, blocks, i);
    }
    if m in scrape.docs {
      if i :| 0 <= i < |blocks| && blocks[i].sample.metric == m {
        var f := FirstExists(blocks, i);
        assert HeaderOk(scrape.docs, blocks, f);
        assert HeadedAt(blocks, f, m);
      }
    }
  }

  /**
   After filtering, a metric is documented exactly once if one of its samples was kept and the
   backend documented it, and not at all otherwise.
   */
  lemma {:induction false} FilteredHeaders(
    selectors: seq<Selector>, shelf: Shelf, now: nat, scrape: Scrape, draws: seq<seq<real>>, blocks: seq<Block>,
    m: string)
    requires WellFiled(shelf) && ScrapeDrawsFit(selectors, scrape.samples, draws)
    requires
      var l := FilterScrape(selectors, shelf, now, scrape, draws);
      Arranged(Scrape(l.docs, l.samples), blocks)
    ensures (exists i: nat :: HeadedAt(blocks, i, m)) <==>
      m in scrape.docs && exists s :: s in KeptSeries(selectors, scrape.samples) && s.metric == m
    ensures forall i: nat | HeadedAt(blocks, i, m) :: m in scrape.docs && blocks[i].header.value.help == scrape.docs[m]
  {
    var l := FilterScrape(selectors, shelf, now, scrape, draws);
    DocsFollowSamples(selectors, shelf, scrape.docs, now, scrape.samples, draws);
    OutputIsKeptSeries(selectors, shelf, scrape.docs, now, scrape.samples, draws);
    HeaderOnce(Scrape(l.docs, l.samples), blocks, m);
    MetricsOfBlocks(blocks, l.samples, m);
    MetricsOfSeries(l.samples, m);
  }

  lemma {:induction false} MetricsOfBlocks(blocks: seq<Block>, samples: seq<Sample>, m: string)
    requires multiset(SamplesOf(blocks)) == multiset(samples)
    ensures (exists i :: 0 <= i < |blocks| && blocks[i].sample.metric == m)
      <==> (exists i :: 0 <= i < |samples| && samples[i].metric == m)
  {
    if i :| 0 <= i < |blocks| && blocks[i].sample.metric == m {
      assert SamplesOf(blocks)[i] in multiset(samples);
    }
    if i :| 0 <= i < |samples| && samples[i].metric == m {
      assert samples[i] in multiset(SamplesOf(blocks));
      var j :| 0 <= j < |blocks| && SamplesOf(blocks)[j] == samples[i];
      assert blocks[j].sample.metric == m;
    }
  }

  lemma {:induction false} MetricsOfSeries(samples: seq<Sample>, m: string)
    ensures (exists i :: 0 <= i < |samples| && samples[i].metric == m)
      <==> (exists s :: s in AllSeries(samples) && s.metric == m)
  {
    if i :| 0 <= i < |samples| && samples[i].metric == m {
      assert AllSeries(samples)[i] in AllSeries(samples);
    }
  }
}
