/**
 * The histogram behind the Monte Carlo chart
 * (src/app/component/MonteCarloCharts.tsx:29-49): 30 equal-width bins
 * between the smallest and the largest simulated duration, labelled by their
 * centres, and a pass over the durations that counts each one in its bin.
 */
module Histogram {

  const BinCount: nat := 30

  /** One bar of the chart: the bin's centre and how many durations fell in it. */
  datatype Bin = Bin(duration: real, frequency: nat)

  /**
   * What the computation yields. With no durations, `Math.min()` is Infinity
   * and `Math.max()` is -Infinity, so the 30 bins are labelled NaN and stay
   * empty. When every duration is equal the bin width is 0, the first index
   * is NaN, and incrementing `bins[NaN]` throws.
   */
  datatype Outcome = Binned(bins: seq<Bin>) | NaNLabelled | ZeroWidthThrows

  /** `Math.min(...durations)`. */
  function Min(ds: seq<real>): (m: real)
    requires ds != []
    ensures m in ds
    ensures forall i :: 0 <= i < |ds| ==> m <= ds[i]
    decreases |ds|
  {
    if |ds| == 1 then ds[0]
    else
      var m := Min(ds[..|ds| - 1]);
      if ds[|ds| - 1] < m then ds[|ds| - 1] else m
  }

  /** `Math.max(...durations)`. */
  function Max(ds: seq<real>): (m: real)
    requires ds != []
    ensures m in ds
    ensures forall i :: 0 <= i < |ds| ==> ds[i] <= m
    decreases |ds|
  {
    if |ds| == 1 then ds[0]
    else
      var m := Max(ds[..|ds| - 1]);
      if ds[|ds| - 1] > m then ds[|ds| - 1] else m
  }

  /** The label of bin `i`: `min + i * binSize + binSize / 2`. */
  function Centre(lo: real, binSize: real, i: int): real {
    lo + i as real * binSize + binSize / 2.0
  }

  /** Scaling by a positive size keeps the order. */
  lemma ScaleKeepsOrder(a: real, b: real, size: real)
    requires size > 0.0
    ensures a <= b ==> a * size <= b * size
    ensures a < b ==> a * size < b * size
  {
    if a <= b {
      assert (b - a) * size >= 0.0;
    }
    if a < b {
      assert (b - a) * size > 0.0;
    }
  }

  /** With `q * size == diff`, `q.Floor` whole sizes fit in `diff`, and one more does not. */
  lemma FloorBrackets(q: real, size: real, diff: real)
    requires size > 0.0 && q * size == diff
    ensures q.Floor as real * size <= diff
    ensures diff < q.Floor as real * size + size
  {
    var f := q.Floor as real;
    assert f <= q < f + 1.0;
    ScaleKeepsOrder(f, q, size);
    ScaleKeepsOrder(q, f + 1.0, size);
    assert (f + 1.0) * size == f * size + size;
    assert q * size < (f + 1.0) * size;
    assert diff < f * size + size;
  }

  /**
   * `Math.min(Math.floor((d - min) / binSize), binCount - 1)`: bin `j` starts
   * at or before `d`, and, unless `d` was clamped into the last bin, the next
   * bin starts after it; the index is at least 0 for a duration not below
   * the minimum.
   */
  function BinIndex(d: real, lo: real, binSize: real): (j: int)
    requires binSize > 0.0
    ensures j <= BinCount - 1
    ensures lo <= d ==> 0 <= j
    ensures lo + j as real * binSize <= d
    ensures j < BinCount - 1 ==> d < lo + j as real * binSize + binSize
  {
    var q := (d - lo) / binSize;
    FloorBrackets(q, binSize, d - lo);
    var f := q.Floor;
    if f < BinCount - 1 then
      f
    else
      ScaleKeepsOrder((BinCount - 1) as real, f as real, binSize);
      BinCount - 1
  }

  /** `Array.from({ length: 30 }, ...)`: every bin labelled, none counted. */
  function EmptyBins(lo: real, binSize: real): (bins: seq<Bin>)
    ensures |bins| == BinCount
  {
    seq(BinCount, i requires 0 <= i < BinCount => Bin(Centre(lo, binSize, i), 0))
  }

  /** `bins[j].frequency++`. */
  function Increment(bins: seq<Bin>, j: nat): seq<Bin>
    requires j < |bins|
  {
    bins[j := bins[j].(frequency := bins[j].frequency + 1)]
  }

  /** The bins after counting `ds` in order, as the `forEach` does. */
  function BinsAfter(ds: seq<real>, lo: real, binSize: real): (bins: seq<Bin>)
    requires binSize > 0.0
    requires forall i :: 0 <= i < |ds| ==> lo <= ds[i]
    ensures |bins| == BinCount
    decreases |ds|
  {
    if ds == [] then EmptyBins(lo, binSize)
    else Increment(BinsAfter(ds[..|ds| - 1], lo, binSize), BinIndex(ds[|ds| - 1], lo, binSize))
  }

  /**
   * The whole `useMemo` computation: NaN labels without durations, a throw
   * when the bin width is 0, and otherwise the counted 30 bins.
   */
  function HistogramOf(ds: seq<real>): (o: Outcome)
    ensures o.NaNLabelled? <==> ds == []
    ensures o.ZeroWidthThrows? <==> ds != [] && Max(ds) == Min(ds)
    ensures o.Binned? ==> o.bins == BinsAfter(ds, Min(ds), (Max(ds) - Min(ds)) / BinCount as real)
  {
    if ds == [] then NaNLabelled
    else if Max(ds) == Min(ds) then ZeroWidthThrows
    else
      var lo := Min(ds);
      Binned(BinsAfter(ds, lo, (Max(ds) - lo) / BinCount as real))
  }

  /** The sum of the frequencies. */
  function Total(bins: seq<Bin>): nat
    decreases |bins|
  {
    if bins == [] then 0 else bins[0].frequency + Total(bins[1..])
  }

  /** How many of `ds` have bin index `b`: the count the chart should show for bin `b`. */
  function CountInBin(ds: seq<real>, lo: real, binSize: real, b: int): nat
    requires binSize > 0.0
    decreases |ds|
  {
    if ds == [] then 0
    else CountInBin(ds[..|ds| - 1], lo, binSize, b) + (if BinIndex(ds[|ds| - 1], lo, binSize) == b then 1 else 0)
  }

  /** All durations are the same value. */
  predicate AllEqual(ds: seq<real>) {
    forall i, j :: 0 <= i < |ds| && 0 <= j < |ds| ==> ds[i] == ds[j]
  }

  /**
   * The method the component runs: find the range, lay out 30 labelled bins,
   * then count every duration in place.
   */
  method BuildHistogram(durations: seq<real>) returns (outcome: Outcome)
    ensures outcome == HistogramOf(durations)
  {
    if |durations| == 0 {
      return NaNLabelled;
    }
    var lo := Min(durations);
    var hi := Max(durations);
    var binSize := (hi - lo) / BinCount as real;
    var bins := new Bin[BinCount](i => Bin(Centre(lo, binSize, i), 0));
    assert bins[..] == EmptyBins(lo, binSize);
    var k := 0;
    while k < |durations|
      invariant 0 <= k <= |durations|
      invariant k > 0 ==> binSize > 0.0
      invariant binSize > 0.0 ==> bins[..] == BinsAfter(durations[..k], lo, binSize)
    {
      if binSize == 0.0 {
        // (d - min) / 0 is NaN, and `bins[NaN]` is undefined
        return ZeroWidthThrows;
      }
      var j := BinIndex(durations[k], lo, binSize);
      bins[j] := bins[j].(frequency := bins[j].frequency + 1);
      assert durations[..k + 1][..k] == durations[..k];
      k := k + 1;
    }
    assert durations[..k] == durations;
    outcome := Binned(bins[..]);
  }

  /** Counting never relabels a bin: bin `i` keeps its centre. */
  lemma {:induction false} LabelsAreCentres(ds: seq<real>, lo: real, binSize: real, i: nat)
    requires binSize > 0.0
    requires forall k :: 0 <= k < |ds| ==> lo <= ds[k]
    requires i < BinCount
    ensures BinsAfter(ds, lo, binSize)[i].duration == Centre(lo, binSize, i)
    decreases |ds|
  {
    if ds != [] {
      LabelsAreCentres(ds[..|ds| - 1], lo, binSize, i);
    }
  }

  /** Bin `b` counts exactly the durations whose index is `b`. */
  lemma {:induction false} FrequencyIsCount(ds: seq<real>, lo: real, binSize: real, b: nat)
    requires binSize > 0.0
    requires forall k :: 0 <= k < |ds| ==> lo <= ds[k]
    requires b < BinCount
    ensures BinsAfter(ds, lo, binSize)[b].frequency == CountInBin(ds, lo, binSize, b)
    decreases |ds|
  {
    if ds != [] {
      FrequencyIsCount(ds[..|ds| - 1], lo, binSize, b);
    }
  }

  lemma {:induction false} TotalOfIncrement(bins: seq<Bin>, j: nat)
    requires j < |bins|
    ensures Total(Increment(bins, j)) == Total(bins) + 1
    decreases |bins|
  {
    if j > 0 {
      assert Increment(bins, j)[1..] == Increment(bins[1..], j - 1);
      TotalOfIncrement(bins[1..], j - 1);
    } else {
      assert Increment(bins, j)[1..] == bins[1..];
    }
  }

  lemma {:induction false} TotalOfUncounted(bins: seq<Bin>)
    requires forall i :: 0 <= i < |bins| ==> bins[i].frequency == 0
    ensures Total(bins) == 0
    decreases |bins|
  {
    if bins != [] {
      TotalOfUncounted(bins[1..]);
    }
  }

  /** Each duration is counted exactly once: the frequencies add up to the number of durations. */
  lemma {:induction false} CountsAreConserved(ds: seq<real>, lo: real, binSize: real)
    requires binSize > 0.0
    requires forall k :: 0 <= k < |ds| ==> lo <= ds[k]
    ensures Total(BinsAfter(ds, lo, binSize)) == |ds|
    decreases |ds|
  {
    if ds == [] {
      TotalOfUncounted(EmptyBins(lo, binSize));
    } else {
      CountsAreConserved(ds[..|ds| - 1], lo, binSize);
      TotalOfIncrement(BinsAfter(ds[..|ds| - 1], lo, binSize), BinIndex(ds[|ds| - 1], lo, binSize));
    }
  }

  lemma ScaledQuotient(size: real)
    requires size > 0.0
    ensures (size * BinCount as real) / size == BinCount as real
  {
  }

  /** The smallest duration lands in the first bin and, thanks to the clamp, the largest in the last. */
  lemma ExtremesLandInEndBins(lo: real, hi: real)
    requires hi > lo
    ensures var size := (hi - lo) / BinCount as real;
      BinIndex(lo, lo, size) == 0 && BinIndex(hi, lo, size) == BinCount - 1
  {
    var size := (hi - lo) / BinCount as real;
    assert hi - lo == size * BinCount as real;
    ScaledQuotient(size);
    assert (hi - lo) / size == BinCount as real;
  }

  lemma {:induction false} CountedWhenPresent(ds: seq<real>, lo: real, binSize: real, k: nat)
    requires binSize > 0.0
    requires k < |ds|
    ensures CountInBin(ds, lo, binSize, BinIndex(ds[k], lo, binSize)) >= 1
    decreases |ds|
  {
    if k < |ds| - 1 {
      assert ds[..|ds| - 1][k] == ds[k];
      CountedWhenPresent(ds[..|ds| - 1], lo, binSize, k);
    }
  }

  /** The minimum and maximum are equal exactly when every duration is the same. */
  lemma ZeroWidthIffAllEqual(ds: seq<real>)
    requires ds != []
    ensures Max(ds) == Min(ds) <==> AllEqual(ds)
  {
    if AllEqual(ds) {
      var i :| 0 <= i < |ds| && ds[i] == Max(ds);
      var j :| 0 <= j < |ds| && ds[j] == Min(ds);
    }
  }

  /**
   * The chart's data: no durations give NaN labels, equal durations throw,
   * and otherwise there are 30 bins, labelled by their centres, whose
   * frequencies add up to the number of durations, with the first and the
   * last bin both occupied.
   */
  lemma HistogramShape(ds: seq<real>)
    ensures HistogramOf(ds).NaNLabelled? <==> ds == []
    ensures HistogramOf(ds).ZeroWidthThrows? <==> ds != [] && AllEqual(ds)
    ensures HistogramOf(ds).Binned? ==>
      var bins := HistogramOf(ds).bins;
      var size := (Max(ds) - Min(ds)) / BinCount as real;
      && |bins| == BinCount
      && Total(bins) == |ds|
      && (forall i :: 0 <= i < BinCount ==> bins[i].duration == Centre(Min(ds), size, i))
      && bins[0].frequency >= 1
      && bins[BinCount - 1].frequency >= 1
  {
    if ds != [] {
      ZeroWidthIffAllEqual(ds);
      if Max(ds) != Min(ds) {
        var lo := Min(ds);
        var size := (Max(ds) - lo) / BinCount as real;
        var bins := BinsAfter(ds, lo, size);
        CountsAreConserved(ds, lo, size);
        forall i | 0 <= i < BinCount ensures bins[i].duration == Centre(lo, size, i) {
          LabelsAreCentres(ds, lo, size, i);
        }
        ExtremesLandInEndBins(lo, Max(ds));
        var kMin :| 0 <= kMin < |ds| && ds[kMin] == lo;
        var kMax :| 0 <= kMax < |ds| && ds[kMax] == Max(ds);
        CountedWhenPresent(ds, lo, size, kMin);
        CountedWhenPresent(ds, lo, size, kMax);
        FrequencyIsCount(ds, lo, size, 0);
        FrequencyIsCount(ds, lo, size, BinCount - 1);
      }
    }
  }
}
