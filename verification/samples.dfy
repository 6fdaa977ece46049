/** Parsed metrics: samples, their values, and a scrape of them. */
module Samples {
  type Labels = map<string, string>

  datatype Bound = NegInf | Finite(at: real) | PosInf

  datatype BucketCount = BucketCount(lessThan: Bound, count: real)

  datatype QuantileCount = QuantileCount(quantile: real, count: real)

  datatype Value =
    | Untyped(number: real)
    | Counter(number: real)
    | Gauge(number: real)
    | Histogram(buckets: seq<BucketCount>)
    | Summary(quantiles: seq<QuantileCount>)

  /** The numbers of a value: its one number, or the count of each bucket or quantile. */
  function Numbers(v: Value): seq<real> {
    match v
    case Untyped(x) => [x]
    case Counter(x) => [x]
    case Gauge(x) => [x]
    case Histogram(hs) => seq(|hs|, i requires 0 <= i < |hs| => hs[i].count)
    case Summary(qs) => seq(|qs|, i requires 0 <= i < |qs| => qs[i].count)
  }

  /** Both values are of one kind, with the same bounds or quantiles. */
  predicate SameFrame(v: Value, w: Value) {
    && (v.Untyped? <==> w.Untyped?) && (v.Counter? <==> w.Counter?) && (v.Gauge? <==> w.Gauge?)
    && (v.Histogram? <==> w.Histogram?) && (v.Summary? <==> w.Summary?)
    && |Numbers(v)| == |Numbers(w)|
    && (v.Histogram? ==>
          forall i | 0 <= i < |v.buckets| && i < |w.buckets| :: v.buckets[i].lessThan == w.buckets[i].lessThan)
    && (v.Summary? ==>
          forall i | 0 <= i < |v.quantiles| && i < |w.quantiles| :: v.quantiles[i].quantile == w.quantiles[i].quantile)
  }

  /** Every number of `after` lies `offset` above the same number of `before`, and nothing else differs. */
  predicate Shifted(before: Value, after: Value, offset: real) {
    && SameFrame(before, after)
    && forall i | 0 <= i < |Numbers(before)| :: Numbers(after)[i] - Numbers(before)[i] == offset
  }

  datatype Sample = Sample(metric: string, value: Value, labels: Labels, timestamp: int)

  datatype Scrape = Scrape(docs: map<string, string>, samples: seq<Sample>)

  /** What tells one time series from another. */
  datatype Series = Series(metric: string, labels: Labels)

  function SeriesOf(s: Sample): Series {
    Series(s.metric, s.labels)
  }

  /** The label that stands for the metric name. */
  const NAME := "__name__"

  /** A sample with a second, different claim to its metric name. */
  predicate Ambiguous(s: Series) {
    NAME in s.labels && s.labels[NAME] != s.metric
  }
}
