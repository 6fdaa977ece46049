/** How far noise can take a value, in exact reals, for one draw and over whole runs. */
module Noise {
  import opened Samples
  import opened SampleCache
  import opened Filters
  import opened FilterLaws
  import opened FilterRuns

  function Quanta(k: int, quantum: real): real {
    k as real * quantum
  }

  ghost predicate Multiple(x: real, quantum: real) {
    exists k :: x == Quanta(k, quantum)
  }

  /** The largest quantized noise for an amplitude. */
  function Reach(amplitude: real, quantum: real): real
    requires quantum != 0.0
  {
    Quanta(Round(InQuanta(amplitude, quantum)), quantum)
  }

  lemma {:induction false} RoundMonotone(x: real, y: real)
    requires x <= y
    ensures Round(x) <= Round(y)
  {
  }

  lemma {:induction false} RoundOdd(x: real)
    ensures Round(-x) == -Round(x)
  {
  }

  lemma {:induction false} ScaleMonotone(x: real, y: real, c: real)
    requires x <= y && c > 0.0
    ensures x * c <= y * c
  {
  }

  lemma {:induction false} InQuantaMonotone(x: real, y: real, quantum: real)
    requires x <= y && quantum > 0.0
    ensures InQuanta(x, quantum) <= InQuanta(y, quantum)
  {
    ScaleMonotone(x, y, 1.0 / quantum);
  }

  lemma {:induction false} InQuantaOdd(x: real, quantum: real)
    requires quantum > 0.0
    ensures InQuanta(-x, quantum) == -InQuanta(x, quantum)
  {
    var c := 1.0 / quantum;
    assert (-x) * c == -(x * c);
  }

  lemma {:induction false} InQuantaBack(x: real, quantum: real)
    requires quantum > 0.0
    ensures InQuanta(x, quantum) * quantum == x
  {
    var c := 1.0 / quantum;
    assert c * quantum == 1.0;
    assert (x * c) * quantum == x * (c * quantum);
  }

  lemma {:induction false} QuantaMonotone(j: int, k: int, quantum: real)
    requires j <= k && quantum > 0.0
    ensures Quanta(j, quantum) <= Quanta(k, quantum)
  {
    ScaleMonotone(j as real, k as real, quantum);
  }

  lemma {:induction false} QuantaOdd(k: int, quantum: real)
    ensures Quanta(-k, quantum) == -Quanta(k, quantum)
  {
  }

  lemma {:induction false} SumOfMultiples(x: real, y: real, quantum: real)
    requires Multiple(x, quantum) && Multiple(y, quantum)
    ensures Multiple(x + y, quantum)
  {
    var j :| x == Quanta(j, quantum);
    var k :| y == Quanta(k, quantum);
    assert x + y == Quanta(j + k, quantum);
  }

  /** Quantized noise is a multiple of the quantum and at most `Reach` in magnitude. */
  lemma {:induction false} QuantizedReach(draw: real, amplitude: real, quantum: real)
    requires quantum > 0.0 && -amplitude <= draw <= amplitude
    ensures Multiple(Quantized(draw, quantum), quantum)
    ensures -Reach(amplitude, quantum) <= Quantized(draw, quantum) <= Reach(amplitude, quantum)
  {
    var x, y := InQuanta(draw, quantum), InQuanta(amplitude, quantum);
    assert Quantized(draw, quantum) == Quanta(Round(x), quantum);
    InQuantaMonotone(-amplitude, draw, quantum);
    InQuantaMonotone(draw, amplitude, quantum);
    InQuantaOdd(amplitude, quantum);
    RoundMonotone(-y, x);
    RoundMonotone(x, y);
    RoundOdd(y);
    QuantaMonotone(-Round(y), Round(x), quantum);
    QuantaMonotone(Round(x), Round(y), quantum);
    QuantaOdd(Round(y), quantum);
  }

  /** Quantizing moves a draw by at most half a quantum. */
  lemma {:induction false} QuantizedNearest(draw: real, quantum: real)
    requires quantum > 0.0
    ensures -quantum / 2.0 <= Quantized(draw, quantum) - draw <= quantum / 2.0
  {
    var x := InQuanta(draw, quantum);
    var e := Round(x) as real - x;
    InQuantaBack(draw, quantum);
    assert Quantized(draw, quantum) - draw == e * quantum;
    ScaleMonotone(-0.5, e, quantum);
    ScaleMonotone(e, 0.5, quantum);
  }

  /** `x` lies less than half way up to the next integer. */
  predicate LowHalf(x: real) {
    x - x.Floor as real < 0.5
  }

  lemma {:induction false} ReachExactly(amplitude: real, quantum: real)
    requires amplitude > 0.0 && quantum > 0.0
    ensures Reach(amplitude, quantum) <= amplitude <==> LowHalf(InQuanta(amplitude, quantum))
  {
    var x := InQuanta(amplitude, quantum);
    InQuantaBack(amplitude, quantum);
    InQuantaMonotone(0.0, amplitude, quantum);
    if LowHalf(x) {
      assert Round(x) == x.Floor;
      ScaleMonotone(x.Floor as real, x, quantum);
    } else {
      assert Round(x) == x.Floor + 1;
      StrictlyUp(x, Round(x) as real, quantum);
    }
  }

  lemma {:induction false} StrictlyUp(x: real, y: real, c: real)
    requires x < y && c > 0.0
    ensures x * c < y * c
  {
    assert (y - x) * c > 0.0;
  }

  /**
   The documented range: noise stays within the amplitude for every draw exactly when the
   amplitude, counted in quanta, does not round up.
   */
  lemma {:induction false} WithinAmplitudeExactly(amplitude: real, quantum: real)
    requires amplitude > 0.0 && quantum > 0.0
    ensures (forall draw | -amplitude <= draw < amplitude :: -amplitude <= Quantized(draw, quantum) <= amplitude)
      <==> LowHalf(InQuanta(amplitude, quantum))
  {
    ReachExactly(amplitude, quantum);
    if LowHalf(InQuanta(amplitude, quantum)) {
      forall draw | -amplitude <= draw < amplitude ensures -amplitude <= Quantized(draw, quantum) <= amplitude {
        QuantizedReach(draw, amplitude, quantum);
      }
    } else {
      var lowest := -amplitude;
      LowestDraw(amplitude, quantum);
      assert -amplitude <= lowest < amplitude;
    }
  }

  /** The lowest possible draw reaches all the way down. */
  lemma {:induction false} LowestDraw(amplitude: real, quantum: real)
    requires quantum > 0.0
    ensures Quantized(-amplitude, quantum) == -Reach(amplitude, quantum)
  {
    InQuantaOdd(amplitude, quantum);
    RoundOdd(InQuanta(amplitude, quantum));
    QuantaOdd(Round(InQuanta(amplitude, quantum)), quantum);
    assert Quantized(-amplitude, quantum) == Quanta(-Round(InQuanta(amplitude, quantum)), quantum);
  }

  // ---------- one noise action in the plan ----------

  /** The only noise, if any, is action `m`. */
  predicate NoiseOnlyAt(plan: seq<FilterAction>, m: nat) {
    forall i | 0 <= i < |plan| && i != m :: !plan[i].AddAbsoluteNoise?
  }

  ghost predicate ReducesAfter(plan: seq<FilterAction>, m: nat) {
    exists i | m < i < |plan| :: plan[i].ReduceTimeResolution?
  }

  ghost predicate ReducesBefore(plan: seq<FilterAction>, m: nat) {
    exists i | 0 <= i < m && i < |plan| :: plan[i].ReduceTimeResolution?
  }

  function Offset(plan: seq<FilterAction>, draws: seq<real>, m: nat): real
    requires m < |plan| == |draws| && Usable(plan[m]) && plan[m].AddAbsoluteNoise?
  {
    Quantized(draws[m], plan[m].quantum)
  }

  lemma {:induction false} FreshValue(now: nat, plan: seq<FilterAction>, draws: seq<real>, sample: Sample, m: nat)
    requires |plan| == |draws| && (forall i | 0 <= i < |plan| :: Usable(plan[i])) && NoiseOnlyAt(plan, m)
    ensures
      var value := Run(map[], now, plan, draws, Begin(sample)).sample.value;
      if m < |plan| && plan[m].AddAbsoluteNoise? then Shifted(sample.value, value, Offset(plan, draws, m))
      else value == sample.value
    decreases |plan|
  {
    if plan != [] {
      var n := |plan| - 1;
      assert forall i | 0 <= i < n :: plan[..n][i] == plan[i];
      FreshValue(now, plan[..n], draws[..n], sample, m);
      if n == m && plan[m].AddAbsoluteNoise? {
        PerturbShifts(sample.value, Offset(plan, draws, m), Run(map[], now, plan, draws, Begin(sample)).sample.value);
      }
    }
  }

  /** On a hit the cached value gets the noise again exactly if no reduction follows it. */
  lemma {:induction false} HitValue(
    shelf: Shelf, now: nat, plan: seq<FilterAction>, draws: seq<real>, sample: Sample, m: nat, r: nat)
    requires WellFiled(shelf) && |plan| == |draws| && (forall i | 0 <= i < |plan| :: Usable(plan[i]))
    requires NoiseOnlyAt(plan, m) && Uniform(plan, r) && Find(shelf, SeriesOf(sample), now, r).Some?
    ensures
      var value := Run(shelf, now, plan, draws, Begin(sample)).sample.value;
      var cached := shelf[SeriesOf(sample)].sample.value;
      && (ReducesAfter(plan, m) ==> value == cached)
      && (!ReducesAfter(plan, m) && ReducesBefore(plan, m) ==>
            if m < |plan| && plan[m].AddAbsoluteNoise? then Shifted(cached, value, Offset(plan, draws, m))
            else value == cached)
    decreases |plan|
  {
    if plan != [] {
      var n := |plan| - 1;
      assert forall i | 0 <= i < n :: plan[..n][i] == plan[i];
      HitValue(shelf, now, plan[..n], draws[..n], sample, m, r);
      RunKeepsSeries(shelf, now, plan[..n], draws[..n], Begin(sample));
      ReducesAfterLast(plan, m);
      ReducesBeforeLast(plan, m);
      if n == m && plan[m].AddAbsoluteNoise? {
        var value := Run(shelf, now, plan, draws, Begin(sample)).sample.value;
        PerturbShifts(shelf[SeriesOf(sample)].sample.value, Offset(plan, draws, m), value);
      }
    }
  }

  lemma {:induction false} ReducesAfterLast(plan: seq<FilterAction>, m: nat)
    requires plan != []
    ensures
      var n := |plan| - 1;
      ReducesAfter(plan, m) <==> ReducesAfter(plan[..n], m) || (m < n && plan[n].ReduceTimeResolution?)
  {
    var front := plan[..|plan| - 1];
    if i :| m < i < |front| && front[i].ReduceTimeResolution? { assert plan[i].ReduceTimeResolution?; }
    if i :| m < i < |plan| && plan[i].ReduceTimeResolution? {
      if i < |front| { assert front[i].ReduceTimeResolution?; }
    }
  }

  lemma {:induction false} ReducesBeforeLast(plan: seq<FilterAction>, m: nat)
    requires plan != []
    ensures
      var n := |plan| - 1;
      ReducesBefore(plan, m) <==> ReducesBefore(plan[..n], m) || (n < m && plan[n].ReduceTimeResolution?)
  {
    var front := plan[..|plan| - 1];
    if i :| 0 <= i < m && i < |front| && front[i].ReduceTimeResolution? { assert plan[i].ReduceTimeResolution?; }
    if i :| 0 <= i < m && i < |plan| && plan[i].ReduceTimeResolution? {
      if i < |front| { assert front[i].ReduceTimeResolution?; }
    }
  }

  /** Without a reduction the shelf plays no part. */
  lemma {:induction false} NoReduceIgnoresShelf(
    shelf: Shelf, now: nat, plan: seq<FilterAction>, draws: seq<real>, sample: Sample)
    requires WellFiled(shelf) && |plan| == |draws| && forall i | 0 <= i < |plan| :: Usable(plan[i])
    requires !Reduces(plan)
    ensures Run(shelf, now, plan, draws, Begin(sample)) == Run(map[], now, plan, draws, Begin(sample))
  {
    MissIgnoresShelf(shelf, now, plan, draws, sample, now + 1);
  }

  // ---------- over whole runs ----------

  /** Fresh out of its own scrape, a value is one draw away from what was scraped. */
  lemma {:induction false} FreshNoise(
    now: nat, plan: seq<FilterAction>, draws: seq<real>, sample: Sample, m: nat)
    returns (offset: real)
    requires DrawsFit(plan, draws) && NoiseOnlyAt(plan, m)
    requires m < |plan| && plan[m].AddAbsoluteNoise? && plan[m].quantum > 0.0
    ensures Shifted(sample.value, Run(map[], now, plan, draws, Begin(sample)).sample.value, offset)
    ensures Multiple(offset, plan[m].quantum)
    ensures -Reach(plan[m].amplitude, plan[m].quantum) <= offset <= Reach(plan[m].amplitude, plan[m].quantum)
  {
    FreshValue(now, plan, draws, sample, m);
    offset := Offset(plan, draws, m);
    QuantizedReach(draws[m], plan[m].amplitude, plan[m].quantum);
  }

  lemma {:induction false} NoiseOnHit(
    shelf: Shelf, now: nat, plan: seq<FilterAction>, draws: seq<real>, sample: Sample, m: nat, r: nat,
    scraped: Value, stored: real)
    returns (offset: real)
    requires WellFiled(shelf) && DrawsFit(plan, draws) && NoiseOnlyAt(plan, m) && Uniform(plan, r) && Reduces(plan)
    requires m < |plan| && plan[m].AddAbsoluteNoise? && plan[m].quantum > 0.0
    requires Find(shelf, SeriesOf(sample), now, r).Some?
    requires Shifted(scraped, shelf[SeriesOf(sample)].sample.value, stored) && Multiple(stored, plan[m].quantum)
    requires -Reach(plan[m].amplitude, plan[m].quantum) <= stored <= Reach(plan[m].amplitude, plan[m].quantum)
    ensures Shifted(scraped, Run(shelf, now, plan, draws, Begin(sample)).sample.value, offset)
    ensures Multiple(offset, plan[m].quantum)
    ensures
      var reach := Reach(plan[m].amplitude, plan[m].quantum);
      if ReducesAfter(plan, m) then -reach <= offset <= reach else -2.0 * reach <= offset <= 2.0 * reach
  {
    HitValue(shelf, now, plan, draws, sample, m, r);
    offset := stored;
    if !ReducesAfter(plan, m) {
      ReducesSomewhere(plan, m);
      var again := Offset(plan, draws, m);
      QuantizedReach(draws[m], plan[m].amplitude, plan[m].quantum);
      var value := Run(shelf, now, plan, draws, Begin(sample)).sample.value;
      ShiftedTwice(scraped, shelf[SeriesOf(sample)].sample.value, value, stored, again);
      SumOfMultiples(stored, again, plan[m].quantum);
      offset := stored + again;
    }
  }

  /**
   For a series with one matching noise action and agreeing resolutions, whatever comes out is
   a value scraped for that series, then or earlier, moved by a whole number of quanta: at
   most `Reach` if a reduction follows the noise or none matches, at most twice that if the
   noise comes after every reduction and is added again to the cached sample.
   */
  lemma {:induction false} NoiseBound(selectors: seq<Selector>, visits: seq<Visit>, i: nat, m: nat, r: nat)
    returns (h: nat, offset: real)
    requires VisitsFit(selectors, visits) && i < |visits|
    requires
      var plan := Plan(selectors, SeriesOf(visits[i].sample));
      && Uniform(plan, r) && NoiseOnlyAt(plan, m)
      && m < |plan| && plan[m].AddAbsoluteNoise? && plan[m].quantum > 0.0
    ensures h <= i && SeriesOf(visits[h].sample) == SeriesOf(visits[i].sample)
    ensures Shifted(visits[h].sample.value, OutcomeAt(selectors, visits, i).sample.value, offset)
    ensures Multiple(offset, Plan(selectors, SeriesOf(visits[i].sample))[m].quantum)
    ensures
      var plan := Plan(selectors, SeriesOf(visits[i].sample));
      var reach := Reach(plan[m].amplitude, plan[m].quantum);
      if ReducesAfter(plan, m) || !Reduces(plan) then -reach <= offset <= reach
        else -2.0 * reach <= offset <= 2.0 * reach
  {
    var v := visits[i];
    var s := SeriesOf(v.sample);
    var plan := Plan(selectors, s);
    var shelf := ShelfAfter(selectors, visits[..i]);
    assert DrawsFit(plan, v.draws);
    RunShelfFiled(selectors, visits[..i]);
    if !Reduces(plan) || Find(shelf, s, v.now, r).None? {
      h := i;
      if Reduces(plan) {
        MissIgnoresShelf(shelf, v.now, plan, v.draws, v.sample, r);
      } else {
        NoReduceIgnoresShelf(shelf, v.now, plan, v.draws, v.sample);
      }
      offset := FreshNoise(v.now, plan, v.draws, v.sample, m);
    } else {
      h := EntryIsFresh(selectors, visits[..i], s, r);
      offset := FreshNoise(visits[h].now, plan, visits[h].draws, visits[h].sample, m);
      offset := NoiseOnHit(shelf, v.now, plan, v.draws, v.sample, m, r, visits[h].sample.value, offset);
    }
  }

  lemma {:induction false} ReducesSomewhere(plan: seq<FilterAction>, m: nat)
    requires Reduces(plan) && !ReducesAfter(plan, m) && m < |plan| && plan[m].AddAbsoluteNoise?
    ensures ReducesBefore(plan, m)
  {
    var i :| 0 <= i < |plan| && plan[i].ReduceTimeResolution?;
    assert i < m;
  }
}
