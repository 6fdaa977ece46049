/** Label text: one canonical, readable-back form per label map. */
module LabelText {
  import opened Wrappers
  import opened Samples
  import opened TextOrder
  import opened SeriesKey

  function Item(p: LabelPair): string {
    p.name + "=\"" + p.value + "\""
  }

  const ITEM_TEXT: LabelPair -> string := (p: LabelPair) => Item(p)

  const ITSELF: string -> string := (text: string) => text

  function Items(pairs: seq<LabelPair>): seq<string> {
    seq(|pairs|, i requires 0 <= i < |pairs| => Item(pairs[i]))
  }

  function Braced(items: seq<string>): string {
    if items == [] then "" else "{" + Join(items, ",") + "}"
  }

  /** The labels' pairs, sorted by the text they render to. */
  ghost function SortedPairs(labels: Labels): seq<LabelPair> {
    Sort(ITEM_TEXT, Listed(PairSet(labels)))
  }

  function WithExtra(pairs: seq<LabelPair>, extra: Option<LabelPair>): seq<LabelPair> {
    pairs + (match extra case None => [] case Some(p) => [p])
  }

  /** The pairs rendered: the sorted labels and, always last, the extra one. */
  ghost function RenderedPairs(labels: Labels, extra: Option<LabelPair>): seq<LabelPair> {
    WithExtra(SortedPairs(labels), extra)
  }

  ghost function LabelsText(labels: Labels, extra: Option<LabelPair>): string {
    Braced(Items(RenderedPairs(labels, extra)))
  }

  /** Whatever order the label map is iterated in, the text is the same. */
  method RenderLabels(labels: Labels, extra: Option<LabelPair>) returns (text: string)
    ensures text == LabelsText(labels, extra)
  {
    hide SortedPairs;
    var pairs := Entries(labels);
    var joined: seq<string> := [];
    for i := 0 to |pairs|
      invariant joined == Items(pairs[..i])
    {
      assert pairs[..i + 1] == pairs[..i] + [pairs[i]];
      joined := joined + [Item(pairs[i])];
    }
    assert pairs[..|pairs|] == pairs;
    joined := SortUnstable(ITSELF, joined);
    SortedItems(labels, pairs, joined);
    if extra.Some? {
      joined := joined + [Item(extra.value)];
    }
    assert joined == Items(RenderedPairs(labels, extra));
    text := if joined == [] then "" else "{" + Join(joined, ",") + "}";
  }

  lemma {:induction false} ItemsConcat(a: seq<LabelPair>, b: seq<LabelPair>)
    ensures Items(a + b) == Items(a) + Items(b)
  {
  }

  /** Equal bags of pairs render to equal bags of items. */
  lemma {:induction false} ItemsPermute(a: seq<LabelPair>, b: seq<LabelPair>)
    requires multiset(a) == multiset(b)
    ensures multiset(Items(a)) == multiset(Items(b))
    decreases |a|
  {
    hide Item;
    if a == [] {
      assert |b| == |multiset(b)| == 0;
    } else {
      assert a[0] in multiset(b);
      var j :| 0 <= j < |b| && b[j] == a[0];
      var rest := b[..j] + b[j + 1..];
      assert a == [a[0]] + a[1..];
      assert b == b[..j] + ([b[j]] + b[j + 1..]);
      assert multiset(a[1..]) == multiset(a) - multiset{a[0]};
      assert multiset(rest) == multiset(b) - multiset{a[0]};
      ItemsPermute(a[1..], rest);
      ItemsConcat([a[0]], a[1..]);
      ItemsConcat(b[..j], [b[j]] + b[j + 1..]);
      ItemsConcat([b[j]], b[j + 1..]);
      ItemsConcat(b[..j], b[j + 1..]);
    }
  }

  lemma {:induction false} SortedItems(labels: Labels, pairs: seq<LabelPair>, sorted: seq<string>)
    requires multiset(pairs) == multiset(PairSet(labels))
    requires multiset(sorted) == multiset(Items(pairs)) && SortedBy(ITSELF, sorted)
    ensures sorted == Items(SortedPairs(labels))
  {
    SortSorts(ITEM_TEXT, Listed(PairSet(labels)));
    ItemsPermute(pairs, SortedPairs(labels));
    var items := Items(SortedPairs(labels));
    forall i, j | 0 <= i < j < |items| ensures Leq(ITSELF(items[i]), ITSELF(items[j])) {
      assert Leq(ITEM_TEXT(SortedPairs(labels)[i]), ITEM_TEXT(SortedPairs(labels)[j]));
    }
    OneOrder(ITSELF, sorted, items);
  }

  /**
   The text spelled out: nothing if there is no label at all, and otherwise, in braces and with
   commas, the items `name="value"` of all labels in ascending order and the extra label's last.
   */
  lemma {:induction false} LabelsTextSpelled(labels: Labels, extra: Option<LabelPair>) returns (items: seq<string>)
    ensures |items| == |labels|
    ensures forall i, j | 0 <= i < j < |items| :: Leq(items[i], items[j])
    ensures forall n | n in labels :: n + "=\"" + labels[n] + "\"" in items
    ensures forall t | t in items :: exists n :: n in labels && t == n + "=\"" + labels[n] + "\""
    ensures
      var all := items + (match extra case None => [] case Some(e) => [e.name + "=\"" + e.value + "\""]);
      LabelsText(labels, extra) == if all == [] then "" else "{" + Join(all, ",") + "}"
  {
    hide SortedPairs, Leq, Braced, Join;
    items := Items(SortedPairs(labels));
    ItemsInOrder(labels);
    ItemsOfAll(labels);
    TextOfItems(SortedPairs(labels), extra);
  }

  lemma {:induction false} ItemsInOrder(labels: Labels)
    ensures |Items(SortedPairs(labels))| == |labels|
    ensures SortedBy(ITSELF, Items(SortedPairs(labels)))
  {
    var pairs := SortedPairs(labels);
    SortSorts(ITEM_TEXT, Listed(PairSet(labels)));
    forall i, j | 0 <= i < j < |pairs| ensures Leq(ITSELF(Items(pairs)[i]), ITSELF(Items(pairs)[j])) {
      assert Leq(ITEM_TEXT(pairs[i]), ITEM_TEXT(pairs[j]));
    }
    PairCount(labels);
    assert |pairs| == |multiset(pairs)| == |PairSet(labels)|;
  }

  lemma {:induction false} ItemsOfAll(labels: Labels)
    ensures forall n | n in labels :: n + "=\"" + labels[n] + "\"" in Items(SortedPairs(labels))
    ensures forall t | t in Items(SortedPairs(labels)) :: exists n :: n in labels && t == n + "=\"" + labels[n] + "\""
  {
    hide SortedPairs;
    var pairs := SortedPairs(labels);
    forall n | n in labels ensures n + "=\"" + labels[n] + "\"" in Items(pairs) {
      SortedPairsAre(labels, LabelPair(n, labels[n]));
      var i :| 0 <= i < |pairs| && pairs[i] == LabelPair(n, labels[n]);
      assert Items(pairs)[i] == n + "=\"" + labels[n] + "\"";
    }
    forall t | t in Items(pairs) ensures exists n :: n in labels && t == n + "=\"" + labels[n] + "\"" {
      var i :| 0 <= i < |pairs| && Items(pairs)[i] == t;
      SortedPairsAre(labels, pairs[i]);
    }
  }

  lemma {:induction false} TextOfItems(pairs: seq<LabelPair>, extra: Option<LabelPair>)
    ensures
      var all := Items(pairs) + (match extra case None => [] case Some(e) => [e.name + "=\"" + e.value + "\""]);
      Braced(Items(WithExtra(pairs, extra))) == if all == [] then "" else "{" + Join(all, ",") + "}"
  {
    hide Join;
    match extra {
      case Some(e) =>
        ItemsConcat(pairs, [e]);
        assert Items([e]) == [e.name + "=\"" + e.value + "\""];
      case None => assert Items(pairs) + [] == Items(pairs) && pairs + [] == pairs;
    }
  }

  lemma {:induction false} PairCount(labels: Labels)
    ensures |PairSet(labels)| == |labels|
    decreases |labels|
  {
    if labels == map[] {
      assert PairSet(labels) == {};
    } else {
      var n :| n in labels;
      var rest := labels - {n};
      PairCount(rest);
      var pair := LabelPair(n, labels[n]);
      forall p ensures p in PairSet(labels) <==> p in PairSet(rest) + {pair} {
        assert p in PairSet(labels) <==> p.name in labels && p.value == labels[p.name];
        assert p in PairSet(rest) <==> p.name in rest && p.value == rest[p.name];
      }
      assert PairSet(labels) == PairSet(rest) + {pair};
      assert labels.Keys == rest.Keys + {n};
    }
  }

  // ---------- reading it back ----------

  predicate Unquoted(text: string) {
    '"' !in text
  }

  /** At `i` in the text a value seems to end, and a further label to begin whose value starts after `j`. */
  predicate ForgedAt(text: string, i: nat, j: nat) {
    && i + 2 <= j && j + 1 < |text|
    && text[i] == '"' && text[i + 1] == ',' && text[j] == '=' && text[j + 1] == '"'
    && Unquoted(text[i + 2..j])
  }

  /** Values are not escaped: this one, once quoted, reads as if it ended and a further label began. */
  ghost predicate Forges(value: string) {
    exists i: nat, j: nat :: ForgedAt(value + "\"", i, j)
  }

  ghost predicate PairOk(p: LabelPair) {
    Unquoted(p.name) && !Forges(p.value)
  }

  lemma {:induction false} UnquotedForgesNothing(value: string)
    requires Unquoted(value)
    ensures !Forges(value)
  {
    var text := value + "\"";
    assert forall i | 0 <= i < |value| :: text[i] == value[i];
  }

  /** The text up to the first quote can be read back. */
  lemma {:induction false} UpToQuote(a1: string, b1: string, a2: string, b2: string)
    requires Unquoted(a1) && Unquoted(a2) && a1 + "\"" + b1 == a2 + "\"" + b2
    ensures a1 == a2 && b1 == b2
  {
    var text := a1 + "\"" + b1;
    assert text[|a1|] == '"' && text[|a2|] == '"';
    assert forall i | 0 <= i < |a1| :: text[i] == a1[i];
    assert forall i | 0 <= i < |a2| :: text[i] == a2[i];
    assert |a1| == |a2|;
    assert a1 == text[..|a1|] == a2;
    assert b1 == text[|a1| + 1..] == b2;
  }

  /** What follows a closing quote: the next label, or the closing brace and no quote any more. */
  ghost predicate EndsValue(rest: string, plain: bool) {
    || (exists n :: Unquoted(n) && "," + n + "=\"" <= rest)
    || (rest != [] && rest[0] == '}' && (plain || Unquoted(rest)))
  }

  lemma {:induction false} ForgedByNext(text: string, i: nat, name: string, j: nat)
    requires Unquoted(name) && i + 3 + |name| < |text| && i < j < |text|
    requires text[i] == '"' && text[i + 1..i + 4 + |name|] == "," + name + "=\"" && text[j] == '"'
    ensures ForgedAt(text[..j + 1], i, i + 2 + |name|)
  {
    var next := text[i + 1..i + 4 + |name|];
    assert forall k | 0 <= k < |next| :: text[i + 1 + k] == next[k];
    assert forall k | 0 <= k < |name| :: next[k + 1] == name[k];
    assert next[0] == ',' && next[|name| + 1] == '=' && next[|name| + 2] == '"';
    assert forall k | i < k < i + 3 + |name| :: text[k] == next[k - i - 1] && next[k - i - 1] != '"';
    assert j >= i + 3 + |name|;
    assert text[..j + 1][i + 2..i + 2 + |name|] == name;
  }

  /** A value that another reading of the same text ends earlier forges a label. */
  lemma {:induction false} EarlierEnd(v1: string, r1: string, v2: string, r2: string, plain: bool)
    requires v1 + "\"" + r1 == v2 + "\"" + r2
    requires EndsValue(r1, plain) && |v1| < |v2|
    ensures Forges(v2) || (plain && !Unquoted(v2))
  {
    var text := v1 + "\"" + r1;
    assert text[|v1|] == '"' && text[|v2|] == '"';
    assert v2[|v1|] == text[|v1|];
    assert r1[|v2| - |v1| - 1] == text[|v2|];
    if n :| Unquoted(n) && "," + n + "=\"" <= r1 {
      assert text[|v1| + 1..|v1| + 4 + |n|] == r1[..|n| + 3] == "," + n + "=\"";
      ForgedByNext(text, |v1|, n, |v2|);
      assert text[..|v2| + 1] == v2 + "\"";
    }
  }

  lemma {:induction false} FirstItem(p: LabelPair, r1: string, q: LabelPair, r2: string, plain: bool)
    requires PairOk(p) && PairOk(q) && Item(p) + r1 == Item(q) + r2
    requires plain ==> Unquoted(p.value) && Unquoted(q.value)
    requires EndsValue(r1, plain) && EndsValue(r2, plain)
    ensures p == q && r1 == r2
  {
    hide Forges, EndsValue;
    assert Item(p) + r1 == (p.name + "=") + "\"" + (p.value + "\"" + r1);
    assert Item(q) + r2 == (q.name + "=") + "\"" + (q.value + "\"" + r2);
    UpToQuote(p.name + "=", p.value + "\"" + r1, q.name + "=", q.value + "\"" + r2);
    assert p.name == (p.name + "=")[..|p.name|];
    assert q.name == (q.name + "=")[..|q.name|];
    if |p.value| < |q.value| { EarlierEnd(p.value, r1, q.value, r2, plain); }
    if |q.value| < |p.value| { EarlierEnd(q.value, r2, p.value, r1, plain); }
    assert p.value + "\"" + r1 == p.value + ("\"" + r1) && q.value + "\"" + r2 == q.value + ("\"" + r2);
    SameSplit(p.value, "\"" + r1, q.value, "\"" + r2);
    assert r1 == ("\"" + r1)[1..] && r2 == ("\"" + r2)[1..];
  }

  lemma {:induction false} SameSplit(a1: string, b1: string, a2: string, b2: string)
    requires a1 + b1 == a2 + b2 && |a1| == |a2|
    ensures a1 == a2 && b1 == b2
  {
    assert a1 == (a1 + b1)[..|a1|] && b1 == (a1 + b1)[|a1|..];
    assert a2 == (a2 + b2)[..|a2|] && b2 == (a2 + b2)[|a2|..];
  }

  lemma {:induction false} JoinFirst(pairs: seq<LabelPair>)
    requires pairs != []
    ensures Join(Items(pairs), ",")
      == Item(pairs[0]) + (if |pairs| == 1 then "" else "," + Join(Items(pairs[1..]), ","))
  {
    if |pairs| > 1 {
      assert Items(pairs)[1..] == Items(pairs[1..]);
    }
  }

  /** The joined items and what follows their closing brace can be read back. */
  /** What follows the first item of a joined list. */
  function RestOf(pairs: seq<LabelPair>, t: string): string
    requires pairs != []
  {
    if |pairs| == 1 then "}" + t else "," + (Join(Items(pairs[1..]), ",") + "}" + t)
  }

  lemma {:induction false} FirstAndRest(pairs: seq<LabelPair>, t: string)
    requires pairs != []
    ensures Join(Items(pairs), ",") + "}" + t == Item(pairs[0]) + RestOf(pairs, t)
  {
    JoinFirst(pairs);
  }

  lemma {:induction false} ItemOpens(p: LabelPair, rest: string)
    ensures "," + p.name + "=\"" <= "," + (Item(p) + rest)
  {
    assert "," + (Item(p) + rest) == ("," + p.name + "=\"") + (p.value + "\"" + rest);
  }

  lemma {:induction false} RestEnds(pairs: seq<LabelPair>, t: string, plain: bool)
    requires pairs != [] && (forall i | 0 <= i < |pairs| :: PairOk(pairs[i])) && (plain || Unquoted(t))
    ensures EndsValue(RestOf(pairs, t), plain)
  {
    hide Forges, Join, Items, Item;
    if |pairs| > 1 {
      FirstAndRest(pairs[1..], t);
      ItemOpens(pairs[1], RestOf(pairs[1..], t));
      assert PairOk(pairs[1]);
    }
  }

  ghost predicate PairsOk(pairs: seq<LabelPair>) {
    forall i | 0 <= i < |pairs| :: PairOk(pairs[i])
  }

  predicate PairsPlain(pairs: seq<LabelPair>) {
    forall i | 0 <= i < |pairs| :: Unquoted(pairs[i].value)
  }

  lemma {:induction false} JoinedTells(xs: seq<LabelPair>, t1: string, ys: seq<LabelPair>, t2: string, plain: bool)
    requires xs != [] && ys != [] && PairsOk(xs) && PairsOk(ys)
    requires if plain then PairsPlain(xs) && PairsPlain(ys) else Unquoted(t1) && Unquoted(t2)
    requires Join(Items(xs), ",") + "}" + t1 == Join(Items(ys), ",") + "}" + t2
    ensures xs == ys && t1 == t2
    decreases |xs|
  {
    hide PairOk, EndsValue, Join, Items, Item;
    FirstAndRest(xs, t1);
    FirstAndRest(ys, t2);
    RestEnds(xs, t1, plain);
    RestEnds(ys, t2, plain);
    FirstItem(xs[0], RestOf(xs, t1), ys[0], RestOf(ys, t2), plain);
    assert RestOf(xs, t1)[0] == RestOf(ys, t2)[0];
    assert RestOf(xs, t1)[1..] == RestOf(ys, t2)[1..];
    if |xs| > 1 {
      JoinedTells(xs[1..], t1, ys[1..], t2, plain);
    }
    assert xs == [xs[0]] + xs[1..] && ys == [ys[0]] + ys[1..];
  }

  /** Names reserved for the extra label. */
  predicate Reserved(name: string) {
    name == "le" || name == "quantile"
  }

  ghost predicate LabelsOk(labels: Labels) {
    forall n | n in labels :: Unquoted(n) && !Forges(labels[n]) && !Reserved(n)
  }

  /** No value holds a quote at all. */
  predicate LabelsPlain(labels: Labels) {
    forall n | n in labels :: Unquoted(labels[n])
  }

  predicate ExtraOk(extra: Option<LabelPair>) {
    extra.Some? ==> Reserved(extra.value.name) && Unquoted(extra.value.value)
  }

  lemma {:induction false} SortedPairsAre(labels: Labels, p: LabelPair)
    ensures p in SortedPairs(labels) <==> p.name in labels && labels[p.name] == p.value
  {
    assert p in multiset(SortedPairs(labels)) <==> p in PairSet(labels);
  }

  lemma {:induction false} RenderedPairsOk(labels: Labels, extra: Option<LabelPair>)
    requires LabelsOk(labels) && ExtraOk(extra)
    ensures PairsOk(RenderedPairs(labels, extra))
    ensures LabelsPlain(labels) ==> PairsPlain(RenderedPairs(labels, extra))
    ensures forall i | 0 <= i < |SortedPairs(labels)| :: !Reserved(SortedPairs(labels)[i].name)
  {
    var sorted := SortedPairs(labels);
    forall i | 0 <= i < |sorted|
      ensures PairOk(sorted[i]) && !Reserved(sorted[i].name)
      ensures LabelsPlain(labels) ==> Unquoted(sorted[i].value)
    {
      assert sorted[i] in sorted;
      SortedPairsAre(labels, sorted[i]);
    }
    if extra.Some? {
      UnquotedForgesNothing(extra.value.value);
    }
  }

  /** The extra label, if there, is last and has a reserved name. */
  lemma {:induction false} LastTells(
    s1: seq<LabelPair>, e1: Option<LabelPair>, s2: seq<LabelPair>, e2: Option<LabelPair>)
    requires ExtraOk(e1) && ExtraOk(e2)
    requires forall i | 0 <= i < |s1| :: !Reserved(s1[i].name)
    requires forall i | 0 <= i < |s2| :: !Reserved(s2[i].name)
    requires WithExtra(s1, e1) == WithExtra(s2, e2)
    ensures s1 == s2 && e1 == e2
  {
    var all := WithExtra(s1, e1);
    if e1.Some? || e2.Some? {
      var last := all[|all| - 1];
      assert e1.Some? ==> last == e1.value;
      assert e2.Some? ==> last == e2.value;
      assert e1.None? ==> all == s1;
      assert e2.None? ==> all == s2;
      assert e1 == e2;
      assert s1 == all[..|all| - 1] == s2;
    } else {
      assert s1 == WithExtra(s1, e1) && s2 == WithExtra(s2, e2);
    }
  }

  /** The rendered pairs tell the labels and the extra label apart. */
  lemma {:induction false} PairsTell(l1: Labels, e1: Option<LabelPair>, l2: Labels, e2: Option<LabelPair>)
    requires LabelsOk(l1) && ExtraOk(e1) && LabelsOk(l2) && ExtraOk(e2)
    requires RenderedPairs(l1, e1) == RenderedPairs(l2, e2)
    ensures l1 == l2 && e1 == e2
  {
    RenderedPairsOk(l1, e1);
    RenderedPairsOk(l2, e2);
    LastTells(SortedPairs(l1), e1, SortedPairs(l2), e2);
    SortedPairsTell(l1, l2);
  }

  lemma {:induction false} SortedPairsTell(l1: Labels, l2: Labels)
    requires SortedPairs(l1) == SortedPairs(l2)
    ensures l1 == l2
  {
    forall p: LabelPair ensures p in PairSet(l1) <==> p in PairSet(l2) {
      SortedPairsAre(l1, p);
      SortedPairsAre(l2, p);
    }
    SamePairsSameLabels(l1, l2);
    SamePairsSameLabels(l2, l1);
    assert l1.Keys == l2.Keys;
  }

  /**
   Label text is unambiguous, even followed by text that does not start with a brace, as long as
   no value forges a label; quotes in values are harmless otherwise.  What follows may hold quotes
   only if no value does.
   */
  lemma {:induction false} LabelsTextTells(
    l1: Labels, e1: Option<LabelPair>, t1: string, l2: Labels, e2: Option<LabelPair>, t2: string)
    requires LabelsOk(l1) && ExtraOk(e1) && LabelsOk(l2) && ExtraOk(e2)
    requires (t1 == [] || t1[0] != '{') && (t2 == [] || t2[0] != '{')
    requires (Unquoted(t1) && Unquoted(t2)) || (LabelsPlain(l1) && LabelsPlain(l2))
    ensures LabelsText(l1, e1) + t1 == LabelsText(l2, e2) + t2 <==> l1 == l2 && e1 == e2 && t1 == t2
  {
    if LabelsText(l1, e1) + t1 == LabelsText(l2, e2) + t2 {
      var p1, p2 := RenderedPairs(l1, e1), RenderedPairs(l2, e2);
      RenderedPairsOk(l1, e1);
      RenderedPairsOk(l2, e2);
      BracedTells(p1, t1, p2, t2, LabelsPlain(l1) && LabelsPlain(l2));
      PairsTell(l1, e1, l2, e2);
    }
  }

  lemma {:induction false} BracedTells(p1: seq<LabelPair>, t1: string, p2: seq<LabelPair>, t2: string, plain: bool)
    requires PairsOk(p1) && PairsOk(p2)
    requires if plain then PairsPlain(p1) && PairsPlain(p2) else Unquoted(t1) && Unquoted(t2)
    requires (t1 == [] || t1[0] != '{') && (t2 == [] || t2[0] != '{')
    requires Braced(Items(p1)) + t1 == Braced(Items(p2)) + t2
    ensures p1 == p2 && t1 == t2
  {
    hide PairsOk, PairsPlain, Join, Item;
    var x, y := Braced(Items(p1)) + t1, Braced(Items(p2)) + t2;
    assert p1 != [] ==> x[0] == '{';
    assert p2 != [] ==> y[0] == '{';
    if p1 == [] || p2 == [] {
      assert p1 == [] ==> x == t1;
      assert p2 == [] ==> y == t2;
    } else {
      assert x[1..] == Join(Items(p1), ",") + "}" + t1;
      assert y[1..] == Join(Items(p2), ",") + "}" + t2;
      JoinedTells(p1, t1, p2, t2, plain);
    }
  }

  /**
   A forged label does collide: for any two labels whose items sort in this order, one label
   whose value holds the rest of the text renders the same.
   */
  lemma {:induction false} ForgedLabelsCollide(a: LabelPair, b: LabelPair)
    requires a.name != b.name && Leq(Item(a), Item(b)) && Item(a) != Item(b)
    ensures
      var l1: Labels := map[a.name := a.value + "\"," + b.name + "=\"" + b.value];
      var l2: Labels := map[a.name := a.value, b.name := b.value];
      && l1 != l2 && LabelsText(l1, None) == LabelsText(l2, None)
      && (Unquoted(b.name) ==> Forges(l1[a.name]))
  {
    var ab := LabelPair(a.name, a.value + "\"," + b.name + "=\"" + b.value);
    var l1: Labels := map[ab.name := ab.value];
    var l2: Labels := map[a.name := a.value, b.name := b.value];
    assert b.name in l2 && b.name !in l1;
    SinglePair(ab);
    TwoPairMap(a, b);
    OnePair(l1, ab);
    CollidingItems(a, b, ab);
    TwoPairs(l2, a, b);
    if Unquoted(b.name) {
      ForgingValue(a.value, b);
    }
  }

  lemma {:induction false} ForgingValue(value: string, p: LabelPair)
    requires Unquoted(p.name)
    ensures Forges(value + "\"," + p.name + "=\"" + p.value)
  {
    var rest := "," + p.name + "=\"" + (p.value + "\"");
    var forging := value + "\"," + p.name + "=\"" + p.value;
    assert value + "\"" + rest == forging + "\"" + "";
    assert "," + p.name + "=\"" <= rest;
    EarlierEnd(value, rest, forging, "", false);
  }

  lemma {:induction false} SinglePair(p: LabelPair)
    ensures PairSet(map[p.name := p.value]) == {p}
  {
    var labels := map[p.name := p.value];
    forall q ensures q in PairSet(labels) <==> q in {p} {
      assert q in PairSet(labels) <==> q.name in labels && labels[q.name] == q.value;
    }
  }

  lemma {:induction false} TwoPairMap(p: LabelPair, q: LabelPair)
    requires p.name != q.name
    ensures PairSet(map[p.name := p.value, q.name := q.value]) == {p, q}
  {
    var labels := map[p.name := p.value, q.name := q.value];
    forall x ensures x in PairSet(labels) <==> x in {p, q} {
      assert x in PairSet(labels) <==> x.name in labels && labels[x.name] == x.value;
    }
  }

  lemma {:induction false} CollidingItems(a: LabelPair, b: LabelPair, ab: LabelPair)
    requires ab == LabelPair(a.name, a.value + "\"," + b.name + "=\"" + b.value)
    ensures Braced(Items([ab])) == Braced(Items([a, b]))
  {
    assert Item(ab) == Item(a) + "," + Item(b);
    assert Items([a, b]) == [Item(a), Item(b)];
    assert Items([a, b])[1..] == [Item(b)];
    assert Items([ab]) == [Item(ab)];
    assert Join([Item(a), Item(b)], ",") == Item(a) + "," + Join([Item(b)], ",");
  }

  lemma {:induction false} OnePair(labels: Labels, p: LabelPair)
    requires PairSet(labels) == {p}
    ensures RenderedPairs(labels, None) == [p]
  {
    var s := SortedPairs(labels);
    assert multiset(s) == multiset({p});
    assert |s| == |multiset(s)| == 1;
    assert s[0] in multiset(s);
  }

  lemma {:induction false} TwoElements(s: seq<LabelPair>, p: LabelPair, q: LabelPair)
    requires p != q && multiset(s) == multiset{p, q}
    ensures s == [p, q] || s == [q, p]
  {
    assert |s| == |multiset(s)| == 2;
    assert s == [s[0], s[1]];
    assert multiset(s) == multiset{s[0], s[1]};
    assert s[0] in multiset{p, q} && s[1] in multiset{p, q};
    assert multiset{p, q}[p] == 1 && multiset{p, q}[q] == 1;
  }

  lemma {:induction false} TwoPairs(labels: Labels, p: LabelPair, q: LabelPair)
    requires PairSet(labels) == {p, q} && p != q && Leq(Item(p), Item(q)) && Item(p) != Item(q)
    ensures RenderedPairs(labels, None) == [p, q]
  {
    var s := SortedPairs(labels);
    SortSorts(ITEM_TEXT, Listed(PairSet(labels)));
    assert multiset({p, q}) == multiset{p, q};
    TwoElements(s, p, q);
    assert Leq(ITEM_TEXT(s[0]), ITEM_TEXT(s[1]));
    if s == [q, p] {
      LeqAntisymmetric(Item(p), Item(q));
    }
    assert s + [] == s;
  }
}
