/** The ordered label set: the key under which the sample cache files a time series. */
module SeriesKey {
  import opened Samples
  import opened TextOrder

  datatype LabelPair = LabelPair(name: string, value: string)

  type Key = seq<LabelPair>

  const PAIR_NAME: LabelPair -> string := (p: LabelPair) => p.name

  function PairSet(labels: Labels): set<LabelPair> {
    set n | n in labels :: LabelPair(n, labels[n])
  }

  function Contents(s: Series): multiset<LabelPair> {
    multiset{LabelPair(NAME, s.metric)} + multiset(PairSet(s.labels))
  }

  /** A key of the series: its pairs, the metric name among them, sorted by name. */
  ghost predicate IsKeyOf(key: Key, s: Series) {
    multiset(key) == Contents(s) && SortedBy(PAIR_NAME, key)
  }

  /** The hash map handed out pair by pair, in any order. */
  method Entries(labels: Labels) returns (pairs: seq<LabelPair>)
    ensures multiset(pairs) == multiset(PairSet(labels))
  {
    pairs := [];
    var left := labels.Keys;
    while left != {}
      invariant left <= labels.Keys
      invariant multiset(pairs) == multiset(set n | n in labels && n !in left :: LabelPair(n, labels[n]))
      decreases left
    {
      var n :| n in left;
      ghost var before := set m | m in labels && m !in left :: LabelPair(m, labels[m]);
      left := left - {n};
      assert (set m | m in labels && m !in left :: LabelPair(m, labels[m])) == before + {LabelPair(n, labels[n])};
      assert LabelPair(n, labels[n]) !in before;
      pairs := pairs + [LabelPair(n, labels[n])];
    }
    assert (set n | n in labels && n !in left :: LabelPair(n, labels[n])) == PairSet(labels);
  }

  method OrderedLabelSet(sample: Sample) returns (key: Key)
    ensures IsKeyOf(key, SeriesOf(sample))
    ensures !Ambiguous(SeriesOf(sample)) ==> key == KeyOf(SeriesOf(sample))
  {
    var labelset := [LabelPair(NAME, sample.metric)];
    var pairs := Entries(sample.labels);
    labelset := labelset + pairs;
    key := SortUnstable(PAIR_NAME, labelset);
    if !Ambiguous(SeriesOf(sample)) {
      KeyOfIsKey(SeriesOf(sample));
      OneKey(SeriesOf(sample), key, KeyOf(SeriesOf(sample)));
    }
  }

  ghost function KeyOf(s: Series): Key {
    Sort(PAIR_NAME, [LabelPair(NAME, s.metric)] + Listed(PairSet(s.labels)))
  }

  lemma {:induction false} KeyOfIsKey(s: Series)
    ensures IsKeyOf(KeyOf(s), s)
  {
    SortSorts(PAIR_NAME, [LabelPair(NAME, s.metric)] + Listed(PairSet(s.labels)));
  }

  lemma {:induction false} InContents(s: Series, p: LabelPair)
    ensures p in Contents(s) <==> p == LabelPair(NAME, s.metric) || (p.name in s.labels && s.labels[p.name] == p.value)
  {
    assert p in PairSet(s.labels) <==> p.name in s.labels && s.labels[p.name] == p.value;
  }

  lemma {:induction false} OneKey(s: Series, k1: Key, k2: Key)
    requires !Ambiguous(s) && IsKeyOf(k1, s) && IsKeyOf(k2, s)
    ensures k1 == k2
  {
    forall x, y | x in k1 && y in k1 && PAIR_NAME(x) == PAIR_NAME(y) ensures x == y {
      assert x in multiset(k1) && y in multiset(k1);
      InContents(s, x);
      InContents(s, y);
    }
    OneOrder(PAIR_NAME, k1, k2);
  }

  /** With two different pairs of one name, a key can be reordered. */
  lemma {:induction false} SwappedKey(s: Series, key: Key) returns (other: Key)
    requires Ambiguous(s) && IsKeyOf(key, s)
    ensures IsKeyOf(other, s) && other != key
  {
    hide Leq, Contents;
    var p, q := LabelPair(NAME, s.metric), LabelPair(NAME, s.labels[NAME]);
    InContents(s, p);
    InContents(s, q);
    assert p in multiset(key) && q in multiset(key);
    var i :| 0 <= i < |key| && key[i] == p;
    var j :| 0 <= j < |key| && key[j] == q;
    other := key[i := q][j := p];
    assert other[i] == q != key[i];
    assert multiset(other) == multiset(key);
    assert forall m | 0 <= m < |key| :: PAIR_NAME(other[m]) == PAIR_NAME(key[m]);
    forall a, b | 0 <= a < b < |other| ensures Leq(PAIR_NAME(other[a]), PAIR_NAME(other[b])) {
      assert Leq(PAIR_NAME(key[a]), PAIR_NAME(key[b]));
    }
  }

  /**
   The key of a series does not depend on the order the label map is iterated in, nor on how
   the unstable sort breaks ties, exactly when no label re-states the metric name differently.
   */
  lemma {:induction false} CanonicalExactly(s: Series)
    ensures (forall k1, k2 | IsKeyOf(k1, s) && IsKeyOf(k2, s) :: k1 == k2) <==> !Ambiguous(s)
  {
    KeyOfIsKey(s);
    if Ambiguous(s) {
      var other := SwappedKey(s, KeyOf(s));
    } else {
      forall k1, k2 | IsKeyOf(k1, s) && IsKeyOf(k2, s) ensures k1 == k2 {
        OneKey(s, k1, k2);
      }
    }
  }

  /** Unambiguous samples get equal keys exactly when they belong to one time series. */
  lemma {:induction false} KeyTellsSeries(s1: Series, s2: Series, k1: Key, k2: Key)
    requires !Ambiguous(s1) && !Ambiguous(s2) && IsKeyOf(k1, s1) && IsKeyOf(k2, s2)
    ensures k1 == k2 <==> s1 == s2
  {
    if s1 == s2 {
      OneKey(s1, k1, k2);
    }
    if k1 == k2 {
      InContents(s1, LabelPair(NAME, s1.metric));
      InContents(s2, LabelPair(NAME, s1.metric));
      assert s1.metric == s2.metric;
      assert multiset(PairSet(s1.labels)) == Contents(s1) - multiset{LabelPair(NAME, s1.metric)};
      assert multiset(PairSet(s2.labels)) == Contents(s2) - multiset{LabelPair(NAME, s2.metric)};
      forall p ensures p in PairSet(s1.labels) <==> p in PairSet(s2.labels) {
        assert p in multiset(PairSet(s1.labels)) <==> p in multiset(PairSet(s2.labels));
      }
      SamePairsSameLabels(s1.labels, s2.labels);
      SamePairsSameLabels(s2.labels, s1.labels);
      assert s1.labels.Keys == s2.labels.Keys;
    }
  }

  /** An ambiguous sample shares its key with ambiguous ones only, an unambiguous one with its own series only. */
  lemma {:induction false} KeyTellsAmbiguity(key: Key, s1: Series, s2: Series)
    requires IsKeyOf(key, s1) && IsKeyOf(key, s2)
    ensures Ambiguous(s1) <==> Ambiguous(s2)
    ensures !Ambiguous(s1) ==> s1 == s2
  {
    if Ambiguous(s1) { AmbiguityByContents(s1, s2); }
    if Ambiguous(s2) { AmbiguityByContents(s2, s1); }
    if !Ambiguous(s1) && !Ambiguous(s2) { KeyTellsSeries(s1, s2, key, key); }
  }

  lemma {:induction false} AmbiguityByContents(s1: Series, s2: Series)
    requires Contents(s1) == Contents(s2) && Ambiguous(s1)
    ensures Ambiguous(s2)
  {
    var p, q := LabelPair(NAME, s1.metric), LabelPair(NAME, s1.labels[NAME]);
    InContents(s1, p);
    InContents(s1, q);
    InContents(s2, p);
    InContents(s2, q);
  }

  lemma {:induction false} SamePairsSameLabels(a: Labels, b: Labels)
    requires PairSet(a) == PairSet(b)
    ensures forall n | n in a :: n in b && b[n] == a[n]
  {
    forall n | n in a ensures n in b && b[n] == a[n] {
      assert LabelPair(n, a[n]) in PairSet(b);
    }
  }
}
