/** The sample cache: the last stored sample of each time series, with the instant it was stored. */
module SampleCache {
  import opened Wrappers
  import opened Samples
  import opened SeriesKey

  datatype Entry = Entry(sample: Sample, savedAt: nat)

  /** The cache seen by time series instead of by key. */
  type Shelf = map<Series, Entry>

  /** Instants count from the earliest one the platform knows; nothing lies before it. */
  function CheckedSub(when: nat, duration: nat): Option<nat> {
    if duration <= when then Some(when - duration) else None
  }

  function Fresh(entry: Entry, when: nat, staleness: nat): Option<Sample> {
    match CheckedSub(when, staleness)
    case Some(limit) => if entry.savedAt > limit then Some(entry.sample) else None
    case None => None
  }

  function Find(shelf: Shelf, s: Series, when: nat, staleness: nat): Option<Sample> {
    if s in shelf then Fresh(shelf[s], when, staleness) else None
  }

  /** A hit is exactly an entry younger than `staleness`, the subtraction not failing. */
  lemma {:induction false} FindExactly(shelf: Shelf, s: Series, when: nat, staleness: nat)
    ensures Find(shelf, s, when, staleness).Some? <==>
      s in shelf && staleness <= when && when < shelf[s].savedAt + staleness
    ensures Find(shelf, s, when, staleness).Some? ==> Find(shelf, s, when, staleness).value == shelf[s].sample
  {
  }

  /** Every entry is filed under the series of its own sample. */
  ghost predicate WellFiled(shelf: Shelf) {
    forall s | s in shelf :: SeriesOf(shelf[s].sample) == s
  }

  /** Every entry is filed under a key of its own sample. */
  ghost predicate FiledByKey(cache: map<Key, Entry>) {
    forall k | k in cache :: IsKeyOf(k, SeriesOf(cache[k].sample))
  }

  /** The entries of the unambiguous series. */
  ghost function ShelfOf(cache: map<Key, Entry>): (shelf: Shelf)
    requires FiledByKey(cache)
    ensures WellFiled(shelf)
    ensures forall s | s in shelf :: !Ambiguous(s)
    ensures forall s | !Ambiguous(s) :: s in shelf <==> KeyOf(s) in cache
    ensures forall s | s in shelf :: shelf[s] == cache[KeyOf(s)]
  {
    FiledUnderOwnKey(cache);
    map s | s in (set k | k in cache :: SeriesOf(cache[k].sample)) && !Ambiguous(s) :: cache[KeyOf(s)]
  }

  /** What is filed under the key of an unambiguous series belongs to it, and is filed nowhere else. */
  lemma {:induction false} FiledUnderOwnKey(cache: map<Key, Entry>)
    requires FiledByKey(cache)
    ensures forall s | !Ambiguous(s) && KeyOf(s) in cache :: SeriesOf(cache[KeyOf(s)].sample) == s
    ensures forall k | k in cache && !Ambiguous(SeriesOf(cache[k].sample)) :: k == KeyOf(SeriesOf(cache[k].sample))
  {
    forall s | !Ambiguous(s) && KeyOf(s) in cache ensures SeriesOf(cache[KeyOf(s)].sample) == s {
      KeyOfIsKey(s);
      KeyTellsAmbiguity(KeyOf(s), s, SeriesOf(cache[KeyOf(s)].sample));
    }
    forall k | k in cache && !Ambiguous(SeriesOf(cache[k].sample)) ensures k == KeyOf(SeriesOf(cache[k].sample)) {
      KeyOfIsKey(SeriesOf(cache[k].sample));
      OneKey(SeriesOf(cache[k].sample), k, KeyOf(SeriesOf(cache[k].sample)));
    }
  }

  lemma {:induction false} ShelfOfPutAt(cache: map<Key, Entry>, key: Key, entry: Entry, s: Series)
    requires FiledByKey(cache) && IsKeyOf(key, SeriesOf(entry.sample))
    ensures FiledByKey(cache[key := entry])
    ensures
      var a, b := ShelfOf(cache[key := entry]), ShelfOf(cache);
      if s == SeriesOf(entry.sample) && !Ambiguous(s) then s in a && a[s] == entry
      else (s in a <==> s in b) && (s in a ==> a[s] == b[s])
  {
    hide IsKeyOf, Ambiguous, KeyOf;
    var own := SeriesOf(entry.sample);
    assert FiledByKey(cache[key := entry]);
    if !Ambiguous(s) {
      KeyOfIsKey(s);
      if key == KeyOf(s) { KeyTellsAmbiguity(key, s, own); }
      if s == own { OneKey(s, key, KeyOf(s)); }
    }
  }

  /** Storing a sample under its key is storing it for its series; an ambiguous one disturbs no unambiguous series. */
  lemma {:induction false} ShelfOfPut(cache: map<Key, Entry>, key: Key, entry: Entry)
    requires FiledByKey(cache) && IsKeyOf(key, SeriesOf(entry.sample))
    ensures FiledByKey(cache[key := entry])
    ensures ShelfOf(cache[key := entry])
      == if Ambiguous(SeriesOf(entry.sample)) then ShelfOf(cache) else ShelfOf(cache)[SeriesOf(entry.sample) := entry]
  {
    hide ShelfOf, KeyOf, IsKeyOf, Ambiguous;
    assert FiledByKey(cache[key := entry]);
    var a := ShelfOf(cache[key := entry]);
    var b := if Ambiguous(SeriesOf(entry.sample)) then ShelfOf(cache)
      else ShelfOf(cache)[SeriesOf(entry.sample) := entry];
    forall s ensures (s in a <==> s in b) && (s in a ==> a[s] == b[s]) {
      ShelfOfPutAt(cache, key, entry, s);
    }
    SameShelf(a, b);
  }

  lemma {:induction false} SameShelf(a: Shelf, b: Shelf)
    requires forall s :: (s in a <==> s in b) && (s in a ==> a[s] == b[s])
    ensures a == b
  {
    assert a.Keys == b.Keys;
  }

  class SampleCacheStore {
    var cache: map<Key, Entry>

    constructor ()
      ensures cache == map[]
    {
      cache := map[];
    }

    ghost predicate Consistent()
      reads this
    {
      FiledByKey(cache)
    }

    ghost function View(): (shelf: Shelf)
      requires Consistent()
      reads this
    {
      ShelfOf(cache)
    }

    method Get(sample: Sample, when: nat, staleness: nat) returns (r: Option<Sample>)
      ensures exists key ::
        IsKeyOf(key, SeriesOf(sample)) && r == (if key in cache then Fresh(cache[key], when, staleness) else None)
      ensures Consistent() && !Ambiguous(SeriesOf(sample)) ==> r == Find(View(), SeriesOf(sample), when, staleness)
      ensures Consistent() && Ambiguous(SeriesOf(sample)) && r.Some? ==> Ambiguous(SeriesOf(r.value))
    {
      var key := OrderedLabelSet(sample);
      if Consistent() && key in cache {
        KeyTellsAmbiguity(key, SeriesOf(sample), SeriesOf(cache[key].sample));
      }
      if key in cache {
        var entry := cache[key];
        match CheckedSub(when, staleness) {
          case Some(limit) => r := if entry.savedAt > limit then Some(entry.sample) else None;
          case None => r := None;
        }
      } else {
        r := None;
      }
    }

    method Put(sample: Sample, at: nat)
      modifies this
      ensures exists key :: IsKeyOf(key, SeriesOf(sample)) && cache == old(cache)[key := Entry(sample, at)]
      ensures old(Consistent()) ==> Consistent()
      ensures old(Consistent()) ==>
        View() == if Ambiguous(SeriesOf(sample)) then old(View())
          else old(View())[SeriesOf(sample) := Entry(sample, at)]
    {
      var key := OrderedLabelSet(sample);
      if Consistent() {
        ShelfOfPut(cache, key, Entry(sample, at));
      }
      cache := cache[key := Entry(sample, at)];
    }
  }
}
