/** Strings in their usual order, and sorting by a string taken from each element. */
module TextOrder {

  /** Lexicographic order. */
  predicate Leq(a: string, b: string)
    decreases |a|
  {
    if a == [] then true
    else if b == [] then false
    else if a[0] == b[0] then Leq(a[1..], b[1..])
    else a[0] < b[0]
  }

  /** One is the start of the other, or has the smaller character where they first differ. */
  lemma {:induction false} LeqExactly(a: string, b: string)
    ensures Leq(a, b) <==> a <= b || exists i :: DiffersAt(a, b, i) && a[i] < b[i]
    decreases |a|
  {
    if a != [] && b != [] {
      if a[0] == b[0] {
        LeqExactly(a[1..], b[1..]);
        assert a == [a[0]] + a[1..] && b == [b[0]] + b[1..];
        assert a[1..] <= b[1..] ==> a <= b;
        if i :| DiffersAt(a[1..], b[1..], i) && a[1..][i] < b[1..][i] {
          assert a[..i + 1] == [a[0]] + a[1..][..i] && b[..i + 1] == [b[0]] + b[1..][..i];
          assert DiffersAt(a, b, i + 1);
        }
        if i :| DiffersAt(a, b, i) && a[i] < b[i] {
          assert a[1..i] == b[1..i] && a[1..][..i - 1] == a[1..i] && b[1..][..i - 1] == b[1..i];
          assert DiffersAt(a[1..], b[1..], i - 1);
        }
      } else {
        assert a[0] < b[0] ==> DiffersAt(a, b, 0);
        if i :| DiffersAt(a, b, i) && a[i] < b[i] {
          assert i > 0 ==> a[..i][0] == b[..i][0];
        }
      }
    }
  }

  predicate DiffersAt(a: string, b: string, i: int) {
    0 <= i < |a| && i < |b| && a[..i] == b[..i] && a[i] != b[i]
  }

  lemma {:induction false} LeqTotal(a: string, b: string)
    ensures Leq(a, b) || Leq(b, a)
    decreases |a|
  {
    if a != [] && b != [] && a[0] == b[0] {
      LeqTotal(a[1..], b[1..]);
    }
  }

  lemma {:induction false} LeqAntisymmetric(a: string, b: string)
    requires Leq(a, b) && Leq(b, a)
    ensures a == b
    decreases |a|
  {
    if a != [] && b != [] {
      LeqAntisymmetric(a[1..], b[1..]);
      assert a == [a[0]] + a[1..] == [b[0]] + b[1..] == b;
    }
  }

  lemma {:induction false} LeqTransitive(a: string, b: string, c: string)
    requires Leq(a, b) && Leq(b, c)
    ensures Leq(a, c)
    decreases |a|
  {
    if a != [] && b != [] && c != [] && a[0] == b[0] && b[0] == c[0] {
      LeqTransitive(a[1..], b[1..], c[1..]);
    }
  }

  ghost predicate SortedBy<T>(name: T -> string, xs: seq<T>) {
    forall i, j | 0 <= i < j < |xs| :: Leq(name(xs[i]), name(xs[j]))
  }

  /** Where a stable insertion puts an element: behind everything not greater. */
  method Place<T>(name: T -> string, xs: seq<T>, x: T) returns (p: nat)
    requires SortedBy(name, xs)
    ensures p <= |xs|
    ensures forall i | 0 <= i < p :: Leq(name(xs[i]), name(x))
    ensures forall i | p <= i < |xs| :: Leq(name(x), name(xs[i])) && name(xs[i]) != name(x)
  {
    p := |xs|;
    while p > 0 && !Leq(name(xs[p - 1]), name(x))
      invariant p <= |xs|
      invariant forall i | p <= i < |xs| :: Leq(name(x), name(xs[i])) && name(xs[i]) != name(x)
    {
      LeqTotal(name(xs[p - 1]), name(x));
      if name(xs[p - 1]) == name(x) { LeqReflexive(name(x)); }
      p := p - 1;
    }
    forall i | 0 <= i < p ensures Leq(name(xs[i]), name(x)) {
      if i < p - 1 { LeqTransitive(name(xs[i]), name(xs[p - 1]), name(x)); }
    }
  }

  lemma {:induction false} LeqReflexive(a: string)
    ensures Leq(a, a)
  {
    LeqTotal(a, a);
  }

  /** `ys` has the elements of `xs`, each once: the `i`-th one was the `order[i]`-th. */
  ghost predicate Rearranged<T>(xs: seq<T>, ys: seq<T>, order: seq<nat>) {
    && |order| == |ys| == |xs|
    && (forall i | 0 <= i < |ys| :: order[i] < |xs| && ys[i] == xs[order[i]])
    && (forall i, j | 0 <= i < j < |ys| :: order[i] != order[j])
  }

  ghost predicate StablyBy<T>(name: T -> string, xs: seq<T>, ys: seq<T>, order: seq<nat>) {
    && Rearranged(xs, ys, order)
    && SortedBy(name, ys)
    && (forall i, j | 0 <= i < j < |ys| && name(ys[i]) == name(ys[j]) :: order[i] < order[j])
  }

  /** Sorted by name, elements of equal name in the order they had. */
  ghost predicate StablySorted<T>(name: T -> string, xs: seq<T>, ys: seq<T>) {
    exists order :: StablyBy(name, xs, ys, order)
  }

  /** A sort that keeps elements of equal name in order, as the library's stable sort does. */
  method SortStable<T(==)>(name: T -> string, xs: seq<T>) returns (ys: seq<T>)
    ensures multiset(ys) == multiset(xs)
    ensures SortedBy(name, ys)
    ensures StablySorted(name, xs, ys)
  {
    hide StablyBy, SortedBy, Leq;
    ys := [];
    ghost var order: seq<nat> := [];
    NothingSorted(name);
    for i := 0 to |xs|
      invariant multiset(ys) == multiset(xs[..i])
      invariant StablyBy(name, xs[..i], ys, order)
    {
      StablyIsSorted(name, xs[..i], ys, order);
      var p := Place(name, ys, xs[i]);
      assert xs[..i + 1] == xs[..i] + [xs[i]];
      PlacedKeeps(name, xs[..i], ys, order, p, xs[i]);
      ys := ys[..p] + [xs[i]] + ys[p..];
      order := order[..p] + [i] + order[p..];
    }
    assert xs[..|xs|] == xs;
    StablyIsSorted(name, xs, ys, order);
  }

  lemma {:induction false} NothingSorted<T>(name: T -> string)
    ensures StablyBy(name, [], [], [])
  {
  }

  lemma {:induction false} StablyIsSorted<T>(name: T -> string, xs: seq<T>, ys: seq<T>, order: seq<nat>)
    requires StablyBy(name, xs, ys, order)
    ensures SortedBy(name, ys) && |order| == |ys|
  {
  }

  lemma {:induction false} PlacedKeeps<T>(name: T -> string, xs: seq<T>, ys: seq<T>, order: seq<nat>, p: nat, x: T)
    requires StablyBy(name, xs, ys, order) && p <= |ys|
    requires forall i | 0 <= i < p :: Leq(name(ys[i]), name(x))
    requires forall i | p <= i < |ys| :: Leq(name(x), name(ys[i])) && name(ys[i]) != name(x)
    ensures multiset(ys[..p] + [x] + ys[p..]) == multiset(ys) + multiset{x}
    ensures StablyBy(name, xs + [x], ys[..p] + [x] + ys[p..], order[..p] + [|xs|] + order[p..])
  {
    assert ys == ys[..p] + ys[p..];
    var zs, order' := ys[..p] + [x] + ys[p..], order[..p] + [|xs|] + order[p..];
    forall i | 0 <= i < |zs| ensures order'[i] < |xs + [x]| && zs[i] == (xs + [x])[order'[i]] {
      PlacedAt(ys, order, p, x, |xs|, i);
    }
    forall i, j | 0 <= i < j < |zs|
      ensures Leq(name(zs[i]), name(zs[j])) && order'[i] != order'[j]
      ensures name(zs[i]) == name(zs[j]) ==> order'[i] < order'[j]
    {
      PlacedAt(ys, order, p, x, |xs|, i);
      PlacedAt(ys, order, p, x, |xs|, j);
    }
  }

  lemma {:induction false} PlacedAt<T>(ys: seq<T>, order: seq<nat>, p: nat, x: T, n: nat, i: nat)
    requires p <= |ys| == |order| && i <= |ys|
    ensures
      var z, o := (ys[..p] + [x] + ys[p..])[i], (order[..p] + [n] + order[p..])[i];
      if i == p then z == x && o == n
      else z == ys[if i < p then i else i - 1] && o == order[if i < p then i else i - 1]
  {
  }

  /** A sort that promises no order among elements of equal name, as the library's unstable sort. */
  method SortUnstable<T(==)>(name: T -> string, xs: seq<T>) returns (ys: seq<T>)
    ensures multiset(ys) == multiset(xs)
    ensures SortedBy(name, ys)
  {
    ys := SortStable(name, xs);
  }

  /** Names tell the elements of a sequence apart. */
  ghost predicate NamesTell<T(!new)>(name: T -> string, xs: seq<T>) {
    forall x, y | x in xs && y in xs && name(x) == name(y) :: x == y
  }

  /** If names tell the elements apart, there is only one way to sort them. */
  lemma {:induction false} OneOrder<T(!new)>(name: T -> string, xs: seq<T>, ys: seq<T>)
    requires multiset(xs) == multiset(ys) && NamesTell(name, xs)
    requires SortedBy(name, xs) && SortedBy(name, ys)
    ensures xs == ys
    decreases |xs|
  {
    assert |multiset(xs)| == |multiset(ys)|;
    if xs != [] {
      var n := |xs| - 1;
      var front, last := xs[..n], xs[n];
      SameLast(name, xs, ys);
      assert xs == front + [last] && ys == ys[..n] + [last];
      assert multiset(front) + multiset{last} == multiset(ys[..n]) + multiset{last};
      FrontSame(multiset(front), multiset(ys[..n]), last);
      OneOrder(name, front, ys[..n]);
    }
  }

  lemma {:induction false} FrontSame<T>(a: multiset<T>, b: multiset<T>, x: T)
    requires a + multiset{x} == b + multiset{x}
    ensures a == b
  {
    assert a == (a + multiset{x}) - multiset{x};
  }

  /** The last element is the one with the greatest name. */
  lemma {:induction false} SameLast<T(!new)>(name: T -> string, xs: seq<T>, ys: seq<T>)
    requires multiset(xs) == multiset(ys) && |xs| == |ys| > 0 && NamesTell(name, xs)
    requires SortedBy(name, xs) && SortedBy(name, ys)
    ensures xs[|xs| - 1] == ys[|ys| - 1]
  {
    var n := |xs| - 1;
    assert xs[n] in multiset(ys) && ys[n] in multiset(xs);
    var i :| 0 <= i <= n && ys[i] == xs[n];
    var j :| 0 <= j <= n && xs[j] == ys[n];
    LeqReflexive(name(xs[n]));
    LeqReflexive(name(ys[n]));
    LeqAntisymmetric(name(xs[n]), name(ys[n]));
  }

  // ---------- sorting as a function, for specifications ----------

  function Insert<T>(name: T -> string, x: T, ys: seq<T>): (zs: seq<T>)
    ensures multiset(zs) == multiset(ys) + multiset{x}
  {
    if ys == [] || Leq(name(x), name(ys[0])) then [x] + ys
    else
      assert ys == [ys[0]] + ys[1..];
      [ys[0]] + Insert(name, x, ys[1..])
  }

  lemma {:induction false} InsertSorted<T>(name: T -> string, x: T, ys: seq<T>)
    requires SortedBy(name, ys)
    ensures SortedBy(name, Insert(name, x, ys))
    decreases |ys|
  {
    if ys == [] {
    } else if Leq(name(x), name(ys[0])) {
      forall i | 0 <= i < |ys| ensures Leq(name(x), name(ys[i])) {
        if i > 0 { LeqTransitive(name(x), name(ys[0]), name(ys[i])); }
      }
    } else {
      LeqTotal(name(x), name(ys[0]));
      InsertSorted(name, x, ys[1..]);
      var rest := Insert(name, x, ys[1..]);
      forall i | 0 <= i < |rest| ensures Leq(name(ys[0]), name(rest[i])) {
        assert rest[i] in multiset(rest);
      }
    }
  }

  function Sort<T>(name: T -> string, xs: seq<T>): (ys: seq<T>)
    ensures multiset(ys) == multiset(xs)
  {
    if xs == [] then []
    else
      assert xs == [xs[0]] + xs[1..];
      Insert(name, xs[0], Sort(name, xs[1..]))
  }

  lemma {:induction false} SortSorts<T>(name: T -> string, xs: seq<T>)
    ensures SortedBy(name, Sort(name, xs))
    decreases |xs|
  {
    if xs != [] {
      SortSorts(name, xs[1..]);
      InsertSorted(name, xs[0], Sort(name, xs[1..]));
    }
  }

  ghost function Listed<T(!new)>(s: set<T>): (xs: seq<T>)
    ensures multiset(xs) == multiset(s)
    decreases s
  {
    if s == {} then [] else
      var x :| x in s;
      assert multiset(s) == multiset(s - {x}) + multiset{x};
      [x] + Listed(s - {x})
  }

  /** Strings joined by a separator. */
  function Join(parts: seq<string>, separator: string): string {
    if parts == [] then ""
    else if |parts| == 1 then parts[0]
    else parts[0] + separator + Join(parts[1..], separator)
  }

  lemma {:induction false} JoinMore(parts: seq<string>, part: string, separator: string)
    requires parts != []
    ensures Join(parts + [part], separator) == Join(parts, separator) + separator + part
    decreases |parts|
  {
    assert (parts + [part])[1..] == parts[1..] + [part];
    if |parts| > 1 {
      JoinMore(parts[1..], part, separator);
      assert parts[0] + separator + (Join(parts[1..], separator) + separator + part)
        == parts[0] + separator + Join(parts[1..], separator) + separator + part;
    }
  }
}
