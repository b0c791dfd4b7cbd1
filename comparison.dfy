/**
  `Comparer`: classify every candidate against the truth, then sweep a descending list
  of MAPQ breakpoints and accumulate, per candidate, how many reads in the chosen
  category were placed correctly and wrongly at or above each breakpoint.
*/
module Comparison {
  import opened Wrappers
  import opened Alignments

  /** The breakpoints of `create_roc_plots`, highest first. */
  const MapqIntervals: seq<int> :=
    [60, 58, 57, 56, 55, 54, 53, 52, 51, 50, 49, 48, 46, 44, 42, 40, 37, 34, 31, 27, 25, 23, 20, 17, 14, 11, 7, 5, 3, 2, 1, 0]

  /** The upper limit of the first bucket, above every attainable MAPQ. */
  const InitialUpperLimit: int := 100

  /** `get_wrong_alignments_correct_by_other` only looks at reads the wrong aligner placed with at least this MAPQ. */
  const ConfidentMapq: int := 30

  // ---------------------------------------------------------------- categories

  datatype Category = All | Variants | Nonvariants

  /** The comparer's `type`: "all", "variants" or "nonvariants"; anything else raises. */
  function ParseCategory(kind: string): (r: Option<Category>)
    ensures r == Some(All) <==> kind == "all"
    ensures r == Some(Variants) <==> kind == "variants"
    ensures r == Some(Nonvariants) <==> kind == "nonvariants"
  {
    if kind == "all" then Some(All)
    else if kind == "variants" then Some(Variants)
    else if kind == "nonvariants" then Some(Nonvariants)
    else None
  }

  /** A read is in the category according to the truth's `n_variants` for it. */
  predicate InCategory(cat: Category, nVariants: int) {
    match cat
    case All => true
    case Variants => nVariants > 0
    case Nonvariants => nVariants == 0
  }

  /** How many of the first `n` truth reads fall in the category. */
  function CategoryCount(cat: Category, truthVariants: seq<int>, n: nat): (t: nat)
    requires n <= |truthVariants|
    ensures t <= n
    ensures cat == All ==> t == n
  {
    if n == 0 then 0
    else CategoryCount(cat, truthVariants, n - 1) + (if InCategory(cat, truthVariants[n - 1]) then 1 else 0)
  }

  /**
    `total`: every read for "all", and for the other categories the truth reads with,
    respectively without, a variant.
  */
  function CategoryTotal(cat: Category, truthVariants: seq<int>): (t: nat)
    ensures t <= |truthVariants|
  {
    if cat == All then |truthVariants| else CategoryCount(cat, truthVariants, |truthVariants|)
  }

  /** With no negative `n_variants`, every read is either a variant read or a non-variant read. */
  lemma {:induction false} CategoriesPartitionReads(truthVariants: seq<int>, n: nat)
    requires n <= |truthVariants|
    requires forall i :: 0 <= i < |truthVariants| ==> truthVariants[i] >= 0
    ensures CategoryCount(Variants, truthVariants, n) + CategoryCount(Nonvariants, truthVariants, n) == n
  {
    if n > 0 {
      CategoriesPartitionReads(truthVariants, n - 1);
    }
  }

  // ---------------------------------------------------------------- buckets

  /** The bucket test of the sweep: MAPQ in [lo, hi), read in the category. */
  predicate InBucket(mapq: int, nVariants: int, cat: Category, lo: int, hi: int)
    ensures hi <= lo ==> !InBucket(mapq, nVariants, cat, lo, hi)
  {
    lo <= mapq < hi && InCategory(cat, nVariants)
  }

  /** `np.where(...)`: the ids below `n` in the bucket, in increasing order. */
  function Selection(mapqs: seq<int>, truthVariants: seq<int>, cat: Category, lo: int, hi: int, n: nat): (sel: seq<nat>)
    requires n <= |mapqs| == |truthVariants|
    ensures |sel| <= n
    ensures forall j :: 0 <= j < |sel| ==> sel[j] < n
  {
    if n == 0 then []
    else
      Selection(mapqs, truthVariants, cat, lo, hi, n - 1) +
      (if InBucket(mapqs[n - 1], truthVariants[n - 1], cat, lo, hi) then [n - 1] else [])
  }

  /** The selection holds exactly the ids below `n` whose read is in the bucket. */
  lemma {:induction false} SelectionMembers(mapqs: seq<int>, truthVariants: seq<int>, cat: Category, lo: int, hi: int, n: nat)
    requires n <= |mapqs| == |truthVariants|
    ensures forall i: nat :: i in Selection(mapqs, truthVariants, cat, lo, hi, n) <==>
      i < n && InBucket(mapqs[i], truthVariants[i], cat, lo, hi)
  {
    if n > 0 {
      SelectionMembers(mapqs, truthVariants, cat, lo, hi, n - 1);
    }
  }

  /** `np.sum(flags[sel])`. */
  function SumAt(flags: seq<int>, sel: seq<nat>): (r: int)
    requires forall j :: 0 <= j < |sel| ==> sel[j] < |flags|
    ensures IsFlagVector(flags) ==> 0 <= r <= |sel|
  {
    if sel == [] then 0 else SumAt(flags, sel[..|sel| - 1]) + flags[sel[|sel| - 1]]
  }

  /** An `is_correct` array as `set_correctness` writes it: only 0s and 1s. */
  predicate IsFlagVector(flags: seq<int>) {
    forall i :: 0 <= i < |flags| ==> flags[i] == 0 || flags[i] == 1
  }

  /** How many of the first `n` reads lie in the bucket. */
  function BucketSize(mapqs: seq<int>, truthVariants: seq<int>, cat: Category, lo: int, hi: int, n: nat): nat
    requires n <= |mapqs| == |truthVariants|
  {
    if n == 0 then 0
    else
      var inBucket := InBucket(mapqs[n - 1], truthVariants[n - 1], cat, lo, hi);
      BucketSize(mapqs, truthVariants, cat, lo, hi, n - 1) + (if inBucket then 1 else 0)
  }

  /** The sum of the flags of the first `n` reads that lie in the bucket. */
  function BucketCorrect(flags: seq<int>, mapqs: seq<int>, truthVariants: seq<int>, cat: Category, lo: int, hi: int, n: nat): int
    requires n <= |mapqs| == |truthVariants| == |flags|
  {
    if n == 0 then 0
    else
      var inBucket := InBucket(mapqs[n - 1], truthVariants[n - 1], cat, lo, hi);
      BucketCorrect(flags, mapqs, truthVariants, cat, lo, hi, n - 1) + (if inBucket then flags[n - 1] else 0)
  }

  lemma SumAtAppend(flags: seq<int>, sel: seq<nat>, k: nat)
    requires k < |flags| && forall j :: 0 <= j < |sel| ==> sel[j] < |flags|
    ensures SumAt(flags, sel + [k]) == SumAt(flags, sel) + flags[k]
  {
    assert (sel + [k])[..|sel|] == sel;
  }

  /** `np.where` followed by `np.sum` computes the bucket's size and flag sum. */
  lemma {:induction false} SelectionCounts(flags: seq<int>, mapqs: seq<int>, truthVariants: seq<int>, cat: Category,
                                           lo: int, hi: int, n: nat)
    requires n <= |mapqs| == |truthVariants| == |flags|
    ensures |Selection(mapqs, truthVariants, cat, lo, hi, n)| == BucketSize(mapqs, truthVariants, cat, lo, hi, n)
    ensures SumAt(flags, Selection(mapqs, truthVariants, cat, lo, hi, n))
            == BucketCorrect(flags, mapqs, truthVariants, cat, lo, hi, n)
  {
    if n > 0 {
      var k := n - 1;
      SelectionCounts(flags, mapqs, truthVariants, cat, lo, hi, k);
      var before, after := Selection(mapqs, truthVariants, cat, lo, hi, k), Selection(mapqs, truthVariants, cat, lo, hi, n);
      if InBucket(mapqs[k], truthVariants[k], cat, lo, hi) {
        assert after == before + [k];
        SumAtAppend(flags, before, k);
        assert BucketCorrect(flags, mapqs, truthVariants, cat, lo, hi, n)
          == BucketCorrect(flags, mapqs, truthVariants, cat, lo, hi, k) + flags[k];
      } else {
        assert after == before;
        assert BucketCorrect(flags, mapqs, truthVariants, cat, lo, hi, n)
          == BucketCorrect(flags, mapqs, truthVariants, cat, lo, hi, k);
      }
    }
  }

  /**
    Per bucket, with a 0/1 `is_correct`: both `n_correct` and
    `n_wrong = |selection| - n_correct` lie in [0, |selection|].
  */
  lemma {:induction false} BucketCountsBounded(flags: seq<int>, mapqs: seq<int>, truthVariants: seq<int>, cat: Category,
                                               lo: int, hi: int, n: nat)
    requires n <= |mapqs| == |truthVariants| == |flags| && IsFlagVector(flags)
    ensures 0 <= BucketCorrect(flags, mapqs, truthVariants, cat, lo, hi, n) <= BucketSize(mapqs, truthVariants, cat, lo, hi, n)
  {
    if n > 0 {
      BucketCountsBounded(flags, mapqs, truthVariants, cat, lo, hi, n - 1);
    }
  }

  /** Splitting [lo, hi) at `mid` splits the bucket's size and its correct count. */
  lemma {:induction false} SplitBucket(flags: seq<int>, mapqs: seq<int>, truthVariants: seq<int>, cat: Category,
                                       lo: int, mid: int, hi: int, n: nat)
    requires lo <= mid <= hi
    requires n <= |mapqs| == |truthVariants| == |flags|
    ensures BucketSize(mapqs, truthVariants, cat, lo, mid, n) + BucketSize(mapqs, truthVariants, cat, mid, hi, n)
            == BucketSize(mapqs, truthVariants, cat, lo, hi, n)
    ensures BucketCorrect(flags, mapqs, truthVariants, cat, lo, mid, n) + BucketCorrect(flags, mapqs, truthVariants, cat, mid, hi, n)
            == BucketCorrect(flags, mapqs, truthVariants, cat, lo, hi, n)
  {
    if n > 0 {
      SplitBucket(flags, mapqs, truthVariants, cat, lo, mid, hi, n - 1);
    }
  }

  /** An empty MAPQ range selects nothing. */
  lemma {:induction false} EmptyBucket(flags: seq<int>, mapqs: seq<int>, truthVariants: seq<int>, cat: Category, lo: int, n: nat)
    requires n <= |mapqs| == |truthVariants| == |flags|
    ensures BucketSize(mapqs, truthVariants, cat, lo, lo, n) == 0
    ensures BucketCorrect(flags, mapqs, truthVariants, cat, lo, lo, n) == 0
  {
    if n > 0 {
      EmptyBucket(flags, mapqs, truthVariants, cat, lo, n - 1);
    }
  }

  /** The upper limit of bucket `k`: the previous breakpoint, or 100 for the first. */
  function UpperLimit(bps: seq<int>, k: nat): int
    requires k <= |bps|
  {
    if k == 0 then InitialUpperLimit else bps[k - 1]
  }

  predicate StrictlyDescending(bps: seq<int>) {
    forall i :: 0 < i < |bps| ==> bps[i] < bps[i - 1]
  }

  /** Breakpoints the sweep can walk: strictly descending, all below the first upper limit. */
  predicate Breakpoints(bps: seq<int>) {
    StrictlyDescending(bps) && (|bps| > 0 ==> bps[0] < InitialUpperLimit)
  }

  lemma {:induction false} DescendingPairs(bps: seq<int>, i: nat, j: nat)
    requires StrictlyDescending(bps) && i < j < |bps|
    ensures bps[j] < bps[i]
    decreases j - i
  {
    if i + 1 < j {
      DescendingPairs(bps, i, j - 1);
    }
  }

  /** The fixed breakpoints are strictly descending, start below 100 and end at 0. */
  lemma MapqIntervalsShape()
    ensures Breakpoints(MapqIntervals) && MapqIntervals[|MapqIntervals| - 1] == 0
  {
  }

  /** Buckets of distinct breakpoints of a strictly descending list share no read. */
  lemma BucketsDisjoint(mapqs: seq<int>, truthVariants: seq<int>, cat: Category, bps: seq<int>, j: nat, k: nat, i: nat)
    requires |mapqs| == |truthVariants| && StrictlyDescending(bps) && j < k < |bps|
    ensures !(i in Selection(mapqs, truthVariants, cat, bps[j], UpperLimit(bps, j), |mapqs|) &&
              i in Selection(mapqs, truthVariants, cat, bps[k], UpperLimit(bps, k), |mapqs|))
  {
    if j < k - 1 {
      DescendingPairs(bps, j, k - 1);
    }
    SelectionMembers(mapqs, truthVariants, cat, bps[j], UpperLimit(bps, j), |mapqs|);
    SelectionMembers(mapqs, truthVariants, cat, bps[k], UpperLimit(bps, k), |mapqs|);
  }

  // ---------------------------------------------------------------- the sweep

  /** How many reads of the category have MAPQ in [lo, 100). */
  function SeenAt(mapqs: seq<int>, truthVariants: seq<int>, cat: Category, lo: int): nat
    requires |mapqs| == |truthVariants|
  {
    BucketSize(mapqs, truthVariants, cat, lo, InitialUpperLimit, |mapqs|)
  }

  /** `recalled_total` once the sweep has reached breakpoint `lo`. */
  function RecalledAt(flags: seq<int>, mapqs: seq<int>, truthVariants: seq<int>, cat: Category, lo: int): int
    requires |mapqs| == |truthVariants| == |flags|
  {
    BucketCorrect(flags, mapqs, truthVariants, cat, lo, InitialUpperLimit, |mapqs|)
  }

  /** `n_wrong_total` once the sweep has reached breakpoint `lo`. */
  function WrongAt(flags: seq<int>, mapqs: seq<int>, truthVariants: seq<int>, cat: Category, lo: int): int
    requires |mapqs| == |truthVariants| == |flags|
  {
    SeenAt(mapqs, truthVariants, cat, lo) - RecalledAt(flags, mapqs, truthVariants, cat, lo)
  }

  /**
    Lowering the breakpoint never lowers either running total: with a 0/1 `is_correct`
    the bucket in between adds a non-negative number of correct and of wrong reads.
  */
  lemma TotalsNonDecreasing(flags: seq<int>, mapqs: seq<int>, truthVariants: seq<int>, cat: Category, lo: int, lo': int)
    requires |mapqs| == |truthVariants| == |flags| && IsFlagVector(flags)
    requires lo' <= lo <= InitialUpperLimit
    ensures RecalledAt(flags, mapqs, truthVariants, cat, lo) <= RecalledAt(flags, mapqs, truthVariants, cat, lo')
    ensures WrongAt(flags, mapqs, truthVariants, cat, lo) <= WrongAt(flags, mapqs, truthVariants, cat, lo')
  {
    var n := |mapqs|;
    SplitBucket(flags, mapqs, truthVariants, cat, lo', lo, InitialUpperLimit, n);
    BucketCountsBounded(flags, mapqs, truthVariants, cat, lo', lo, n);
  }

  /** Reference count: the first `n` reads of the category with MAPQ below `hi`. */
  function CategoryBelow(cat: Category, mapqs: seq<int>, truthVariants: seq<int>, hi: int, n: nat): nat
    requires n <= |mapqs| == |truthVariants|
  {
    if n == 0 then 0
    else
      var counted := InCategory(cat, truthVariants[n - 1]) && mapqs[n - 1] < hi;
      CategoryBelow(cat, mapqs, truthVariants, hi, n - 1) + (if counted then 1 else 0)
  }

  /** Reference count: those of them marked correct (`is_correct == 1`). */
  function CorrectBelow(flags: seq<int>, cat: Category, mapqs: seq<int>, truthVariants: seq<int>, hi: int, n: nat): nat
    requires n <= |mapqs| == |truthVariants| == |flags|
  {
    if n == 0 then 0
    else
      var counted := InCategory(cat, truthVariants[n - 1]) && mapqs[n - 1] < hi && flags[n - 1] == 1;
      CorrectBelow(flags, cat, mapqs, truthVariants, hi, n - 1) + (if counted then 1 else 0)
  }

  /**
    With no negative MAPQ, the bucket [0, 100) holds exactly the category reads with MAPQ
    below 100, its flag sum (for a 0/1 `is_correct`) counts those marked correct, and when
    every MAPQ is below 100 it is the whole category.
  */
  lemma {:induction false} LowestBreakpointCoversCategory(flags: seq<int>, mapqs: seq<int>, truthVariants: seq<int>,
                                                          cat: Category, n: nat)
    requires n <= |mapqs| == |truthVariants| == |flags|
    requires forall i :: 0 <= i < |mapqs| ==> 0 <= mapqs[i]
    ensures BucketSize(mapqs, truthVariants, cat, 0, InitialUpperLimit, n) == CategoryBelow(cat, mapqs, truthVariants, InitialUpperLimit, n)
    ensures IsFlagVector(flags) ==>
      BucketCorrect(flags, mapqs, truthVariants, cat, 0, InitialUpperLimit, n)
        == CorrectBelow(flags, cat, mapqs, truthVariants, InitialUpperLimit, n)
    ensures (forall i :: 0 <= i < |mapqs| ==> mapqs[i] < InitialUpperLimit) ==>
      BucketSize(mapqs, truthVariants, cat, 0, InitialUpperLimit, n) == CategoryCount(cat, truthVariants, n)
  {
    if n > 0 {
      LowestBreakpointCoversCategory(flags, mapqs, truthVariants, cat, n - 1);
    }
  }

  /** One step of the sweep: reaching breakpoint `k` adds the bucket [bps[k], previous) to both totals. */
  lemma SweepStep(flags: seq<int>, mapqs: seq<int>, truthVariants: seq<int>, cat: Category, bps: seq<int>, k: nat)
    requires |mapqs| == |truthVariants| == |flags| && Breakpoints(bps) && k < |bps|
    ensures var lo, hi := bps[k], UpperLimit(bps, k);
      var correct := BucketCorrect(flags, mapqs, truthVariants, cat, lo, hi, |mapqs|);
      RecalledAt(flags, mapqs, truthVariants, cat, lo) == RecalledAt(flags, mapqs, truthVariants, cat, hi) + correct &&
      WrongAt(flags, mapqs, truthVariants, cat, lo)
        == WrongAt(flags, mapqs, truthVariants, cat, hi) + (BucketSize(mapqs, truthVariants, cat, lo, hi, |mapqs|) - correct)
  {
    if k > 1 {
      DescendingPairs(bps, 0, k - 1);
    }
    SplitBucket(flags, mapqs, truthVariants, cat, bps[k], UpperLimit(bps, k), InitialUpperLimit, |mapqs|);
  }

  /** An IEEE quotient `a / total` of NumPy scalars: exact when total > 0, nan or infinite otherwise. */
  datatype Rate = Finite(value: real) | NaN | PosInfinity | NegInfinity

  function Quotient(a: int, total: nat): (r: Rate)
    ensures r.Finite? <==> total > 0
    ensures total > 0 && 0 <= a <= total ==> 0.0 <= r.value <= 1.0
  {
    if total > 0 then Finite(a as real / total as real)
    else if a == 0 then NaN
    else if a > 0 then PosInfinity
    else NegInfinity
  }

  lemma QuotientMonotone(a: int, b: int, total: nat)
    requires a <= b && total > 0
    ensures Quotient(a, total).value <= Quotient(b, total).value
  {
    assert (b as real - a as real) / total as real >= 0.0;
  }

  /** Two parts of a positive total are two rates that add up to 1. */
  lemma QuotientsOfParts(a: int, b: int, total: nat)
    requires total > 0 && a + b == total
    ensures Quotient(a, total).value + Quotient(b, total).value == 1.0
  {
    var t := total as real;
    assert (a as real + b as real) / t == t / t == 1.0;
    assert a as real / t + b as real / t == (a as real + b as real) / t;
  }

  /** The `recalls` series one candidate contributes: one entry per breakpoint. */
  function RecallSeries(flags: seq<int>, mapqs: seq<int>, truthVariants: seq<int>, cat: Category, bps: seq<int>): (r: seq<Rate>)
    requires |mapqs| == |truthVariants| == |flags|
    ensures |r| == |bps|
  {
    seq(|bps|, k requires 0 <= k < |bps| =>
      Quotient(RecalledAt(flags, mapqs, truthVariants, cat, bps[k]), CategoryTotal(cat, truthVariants)))
  }

  /** The `precision` series one candidate contributes: `n_wrong_total / total` per breakpoint. */
  function PrecisionSeries(flags: seq<int>, mapqs: seq<int>, truthVariants: seq<int>, cat: Category, bps: seq<int>): (r: seq<Rate>)
    requires |mapqs| == |truthVariants| == |flags|
    ensures |r| == |bps|
  {
    seq(|bps|, k requires 0 <= k < |bps| =>
      Quotient(WrongAt(flags, mapqs, truthVariants, cat, bps[k]), CategoryTotal(cat, truthVariants)))
  }

  /** Entry `k` of each series is the running total at breakpoint `k` over the category size. */
  lemma SeriesAt(flags: seq<int>, mapqs: seq<int>, truthVariants: seq<int>, cat: Category, bps: seq<int>, k: nat)
    requires |mapqs| == |truthVariants| == |flags| && k < |bps|
    ensures RecallSeries(flags, mapqs, truthVariants, cat, bps)[k]
            == Quotient(RecalledAt(flags, mapqs, truthVariants, cat, bps[k]), CategoryTotal(cat, truthVariants))
    ensures PrecisionSeries(flags, mapqs, truthVariants, cat, bps)[k]
            == Quotient(WrongAt(flags, mapqs, truthVariants, cat, bps[k]), CategoryTotal(cat, truthVariants))
  {
  }

  /** With a 0/1 `is_correct` and a non-empty category, both series are non-decreasing. */
  lemma SeriesNonDecreasing(flags: seq<int>, mapqs: seq<int>, truthVariants: seq<int>, cat: Category, bps: seq<int>, k: nat, j: nat)
    requires |mapqs| == |truthVariants| == |flags| && IsFlagVector(flags) && Breakpoints(bps)
    requires CategoryTotal(cat, truthVariants) > 0 && k <= j < |bps|
    ensures RecallSeries(flags, mapqs, truthVariants, cat, bps)[k].value <= RecallSeries(flags, mapqs, truthVariants, cat, bps)[j].value
    ensures PrecisionSeries(flags, mapqs, truthVariants, cat, bps)[k].value <= PrecisionSeries(flags, mapqs, truthVariants, cat, bps)[j].value
  {
    if k < j {
      DescendingPairs(bps, k, j);
    }
    if 0 < k {
      DescendingPairs(bps, 0, k);
    }
    var lo, lo' := bps[k], bps[j];
    var total := CategoryTotal(cat, truthVariants);
    TotalsNonDecreasing(flags, mapqs, truthVariants, cat, lo, lo');
    QuotientMonotone(RecalledAt(flags, mapqs, truthVariants, cat, lo), RecalledAt(flags, mapqs, truthVariants, cat, lo'), total);
    QuotientMonotone(WrongAt(flags, mapqs, truthVariants, cat, lo), WrongAt(flags, mapqs, truthVariants, cat, lo'), total);
  }

  /**
    At the last breakpoint (0) the sweep has seen every category read with MAPQ below 100
    (MAPQs being non-negative): the two totals add up to their number, and `recalled_total`
    is the number of them marked correct.
  */
  lemma SweepEndsWithWholeCategory(flags: seq<int>, mapqs: seq<int>, truthVariants: seq<int>, cat: Category)
    requires |mapqs| == |truthVariants| == |flags| && IsFlagVector(flags)
    requires forall i :: 0 <= i < |mapqs| ==> 0 <= mapqs[i]
    ensures var last, n := MapqIntervals[|MapqIntervals| - 1], |mapqs|;
      RecalledAt(flags, mapqs, truthVariants, cat, last) + WrongAt(flags, mapqs, truthVariants, cat, last)
        == CategoryBelow(cat, mapqs, truthVariants, InitialUpperLimit, n) &&
      RecalledAt(flags, mapqs, truthVariants, cat, last) == CorrectBelow(flags, cat, mapqs, truthVariants, InitialUpperLimit, n)
  {
    MapqIntervalsShape();
    LowestBreakpointCoversCategory(flags, mapqs, truthVariants, cat, |mapqs|);
  }

  /**
    With MAPQs in [0, 100) and a non-empty category, the last recall and the last
    `precision` entry add up to 1: every category read is counted once, correct or wrong.
  */
  lemma LastPointsSumToOne(flags: seq<int>, mapqs: seq<int>, truthVariants: seq<int>, cat: Category)
    requires |mapqs| == |truthVariants| == |flags|
    requires forall i :: 0 <= i < |mapqs| ==> 0 <= mapqs[i] < InitialUpperLimit
    requires CategoryTotal(cat, truthVariants) > 0
    ensures var last := |MapqIntervals| - 1;
      RecallSeries(flags, mapqs, truthVariants, cat, MapqIntervals)[last].value +
      PrecisionSeries(flags, mapqs, truthVariants, cat, MapqIntervals)[last].value == 1.0
  {
    MapqIntervalsShape();
    LowestBreakpointCoversCategory(flags, mapqs, truthVariants, cat, |mapqs|);
    var total := CategoryTotal(cat, truthVariants);
    var recalled, wrong := RecalledAt(flags, mapqs, truthVariants, cat, 0), WrongAt(flags, mapqs, truthVariants, cat, 0);
    assert recalled + wrong == total;
    QuotientsOfParts(recalled, wrong, total);
    SeriesAt(flags, mapqs, truthVariants, cat, MapqIntervals, |MapqIntervals| - 1);
  }

  /**
    The inner loop of `create_roc_plots` for one candidate: count the category, walk the
    breakpoints, add the bucket [breakpoint, previous) to the running totals, and append
    `recalled_total / total` and `n_wrong_total / total`.
  */
  method Sweep(mapqs: array<int>, isCorrect: array<int>, truthVariants: array<int>, cat: Category, bps: seq<int>)
    returns (recalledTotals: seq<int>, wrongTotals: seq<int>, recalls: seq<Rate>, precision: seq<Rate>)
    requires mapqs.Length == isCorrect.Length == truthVariants.Length && Breakpoints(bps)
    ensures |recalledTotals| == |wrongTotals| == |bps|
    ensures forall k :: 0 <= k < |bps| ==>
      recalledTotals[k] == RecalledAt(isCorrect[..], mapqs[..], truthVariants[..], cat, bps[k]) &&
      wrongTotals[k] == WrongAt(isCorrect[..], mapqs[..], truthVariants[..], cat, bps[k])
    ensures recalls == RecallSeries(isCorrect[..], mapqs[..], truthVariants[..], cat, bps)
    ensures precision == PrecisionSeries(isCorrect[..], mapqs[..], truthVariants[..], cat, bps)
  {
    var m, f, v := mapqs[..], isCorrect[..], truthVariants[..];
    var n := |m|;
    var total := CategoryTotal(cat, v);
    EmptyBucket(f, m, v, cat, InitialUpperLimit, n);
    var recalledTotal, wrongTotal := 0, 0;
    var prevInterval := InitialUpperLimit;
    recalledTotals, wrongTotals, recalls, precision := [], [], [], [];
    for i := 0 to |bps|
      invariant |recalledTotals| == |wrongTotals| == |recalls| == |precision| == i
      invariant prevInterval == UpperLimit(bps, i)
      invariant recalledTotal == RecalledAt(f, m, v, cat, prevInterval)
      invariant wrongTotal == WrongAt(f, m, v, cat, prevInterval)
      invariant forall k :: 0 <= k < i ==>
        recalledTotals[k] == RecalledAt(f, m, v, cat, bps[k]) &&
        wrongTotals[k] == WrongAt(f, m, v, cat, bps[k]) &&
        recalls[k] == Quotient(recalledTotals[k], total) && precision[k] == Quotient(wrongTotals[k], total)
    {
      var upperLimit, lowerLimit := prevInterval, bps[i];
      var selection := Selection(m, v, cat, lowerLimit, upperLimit, n);
      var nCorrect := SumAt(f, selection);
      var nWrong := |selection| - nCorrect;
      SelectionCounts(f, m, v, cat, lowerLimit, upperLimit, n);
      SweepStep(f, m, v, cat, bps, i);
      recalledTotal := recalledTotal + nCorrect;
      wrongTotal := wrongTotal + nWrong;
      recalledTotals, wrongTotals := recalledTotals + [recalledTotal], wrongTotals + [wrongTotal];
      recalls, precision := recalls + [Quotient(recalledTotal, total)], precision + [Quotient(wrongTotal, total)];
      prevInterval := lowerLimit;
    }
  }

  datatype ComparerError = InvalidType(kind: string)

  /** The two dictionaries `create_roc_plots` fills: one series per candidate name. */
  datatype RocCurves = RocCurves(recalls: map<string, seq<Rate>>, precision: map<string, seq<Rate>>)

  /** The position of `key` among the dictionary's keys. */
  function Lookup(names: seq<string>, key: string): (r: Option<nat>)
    ensures r.Some? ==> r.value < |names| && names[r.value] == key
    ensures r.None? <==> key !in names
  {
    if names == [] then None
    else if names[0] == key then Some(0)
    else match Lookup(names[1..], key)
      case None => None
      case Some(k) => Some(k + 1)
  }

  /** Distinct keys give each position its own key. */
  lemma LookupDistinct(names: seq<string>, k: nat)
    requires k < |names| && forall i, j :: 0 <= i < j < |names| ==> names[i] != names[j]
    ensures Lookup(names, names[k]) == Some(k)
  {
    if k > 0 {
      LookupDistinct(names[1..], k - 1);
    }
  }

  /** The dictionary with keys `keys` and values `values`, paired by position. */
  function Zip<V>(keys: seq<string>, values: seq<V>): (m: map<string, V>)
    requires |keys| == |values| && forall i, j :: 0 <= i < j < |keys| ==> keys[i] != keys[j]
    ensures forall key :: key in m <==> key in keys
    ensures forall j :: 0 <= j < |keys| ==> m[keys[j]] == values[j]
  {
    map j | 0 <= j < |keys| :: keys[j] := values[j]
  }

  /**
    `Comparer`: a truth set, the candidates of the `compare_alignments` dictionary as its
    keys `names` and values `candidates` in insertion order, and the category selector `type`.
  */
  class Comparer {
    var truthAlignments: NumpyAlignments
    var names: seq<string>
    var candidates: seq<NumpyAlignments>
    var kind: string

    constructor (truthAlignments: NumpyAlignments, names: seq<string>, candidates: seq<NumpyAlignments>,
                 kind: string := "all")
      ensures this.truthAlignments == truthAlignments && this.names == names
      ensures this.candidates == candidates && this.kind == kind
    {
      this.truthAlignments := truthAlignments;
      this.names := names;
      this.candidates := candidates;
      this.kind := kind;
    }

    /** The keys are those of a dictionary: one per value, each once. */
    predicate IsDictionary()
      reads this
    {
      |names| == |candidates| && forall i, j :: 0 <= i < j < |names| ==> names[i] != names[j]
    }

    /** A dictionary whose truth and candidates all hold one common number of reads. */
    ghost predicate Valid()
      reads this, truthAlignments, candidates
    {
      IsDictionary() &&
      truthAlignments.HasLength(truthAlignments.chromosomes.Length) &&
      forall j :: 0 <= j < |candidates| ==> candidates[j].HasLength(truthAlignments.chromosomes.Length)
    }

    /** Every candidate has an `is_correct` as long as its MAPQs and the truth's `n_variants`. */
    ghost predicate Ready()
      reads this, truthAlignments, candidates
    {
      IsDictionary() &&
      forall j :: 0 <= j < |candidates| ==>
        candidates[j].isCorrect != null &&
        candidates[j].isCorrect.Length == candidates[j].mapqs.Length == truthAlignments.nVariants.Length
    }

    /** The columns `set_correctness` never touches are as they were. */
    twostate predicate SameColumns(a: NumpyAlignments)
      reads a
    {
      a.chromosomes == old(a.chromosomes) && a.positions == old(a.positions) &&
      a.scores == old(a.scores) && a.mapqs == old(a.mapqs)
    }

    /**
      What `set_correctness(truth)` leaves in a candidate, given the truth's columns: an
      `is_correct` of its length, kept if it was cached, otherwise the 0/1 correctness
      marks, with the truth's `n_variants`.
    */
    twostate predicate Classified(a: NumpyAlignments, truthChromosomes: array<int>, truthPositions: array<int>,
                                  truthVariants: array<int>)
      reads a, a.chromosomes, a.positions, a.isCorrect, truthChromosomes, truthPositions
    {
      a.isCorrect != null && a.isCorrect.Length == a.chromosomes.Length &&
      (old(a.CacheHit(false)) ==> a.isCorrect == old(a.isCorrect) && a.nVariants == old(a.nVariants)) &&
      (!old(a.CacheHit(false)) ==>
        a.nVariants == truthVariants &&
        forall i :: 0 <= i < a.isCorrect.Length && i < a.positions.Length &&
                    i < truthChromosomes.Length && i < truthPositions.Length ==>
          a.isCorrect[i] == if Matches(a.chromosomes[i], a.positions[i], truthChromosomes[i], truthPositions[i],
                                       DefaultAllowedMismatch) then 1 else 0)
    }

    /** The first loop of `create_roc_plots`: `set_correctness(truth)` on every candidate. */
    method SetAllCorrectness()
      requires Valid()
      modifies candidates
      ensures Valid() && Ready()
      ensures SameColumns(truthAlignments) && truthAlignments.nVariants == old(truthAlignments.nVariants)
      ensures forall j :: 0 <= j < |candidates| ==>
        SameColumns(candidates[j]) &&
        Classified(candidates[j], truthAlignments.chromosomes, truthAlignments.positions, truthAlignments.nVariants)
    {
      var truth := truthAlignments;
      var n := truth.chromosomes.Length;
      var tc, tp, tv := truth.chromosomes, truth.positions, truth.nVariants;
      ghost var done: set<NumpyAlignments> := {};
      for i := 0 to |candidates|
        invariant SameColumns(truth) && truth.nVariants == tv
        invariant forall j :: 0 <= j < |candidates| ==> SameColumns(candidates[j]) && candidates[j].HasLength(n)
        invariant forall j :: 0 <= j < i ==> candidates[j] in done
        invariant forall j :: 0 <= j < |candidates| ==>
          if candidates[j] in done then Classified(candidates[j], tc, tp, tv)
          else candidates[j].isCorrect == old(candidates[j].isCorrect) && candidates[j].nVariants == old(candidates[j].nVariants)
      {
        var a := candidates[i];
        ghost var wasDone := a in done;
        label before:
        a.SetCorrectness(truth);
        done := done + {a};
        forall j | 0 <= j < |candidates|
          ensures if candidates[j] in done then Classified(candidates[j], tc, tp, tv)
            else candidates[j].isCorrect == old(candidates[j].isCorrect) && candidates[j].nVariants == old(candidates[j].nVariants)
        {
          if candidates[j] == a {
            assert wasDone ==> old@before(a.CacheHit(false));
          }
        }
      }
    }

    /** The two series `create_roc_plots` reports for candidate `a` under category `cat`. */
    ghost predicate Scored(a: NumpyAlignments, truthVariants: array<int>, cat: Category,
                           recalls: seq<Rate>, precision: seq<Rate>)
      reads a, a.isCorrect, a.mapqs, truthVariants
    {
      a.isCorrect != null && a.isCorrect.Length == a.mapqs.Length == truthVariants.Length &&
      recalls == RecallSeries(a.isCorrect[..], a.mapqs[..], truthVariants[..], cat, MapqIntervals) &&
      precision == PrecisionSeries(a.isCorrect[..], a.mapqs[..], truthVariants[..], cat, MapqIntervals)
    }

    /**
      The second loop of `create_roc_plots` for a known category: per candidate in
      dictionary order, sweep the breakpoints over the reads of the category.
    */
    method SweepAll(cat: Category) returns (curves: RocCurves)
      requires Ready()
      ensures forall name :: (name in curves.recalls <==> name in names) && (name in curves.precision <==> name in names)
      ensures forall j :: 0 <= j < |names| ==>
        Scored(candidates[j], truthAlignments.nVariants, cat, curves.recalls[names[j]], curves.precision[names[j]])
    {
      MapqIntervalsShape();
      var truth := truthAlignments;
      var recallList: seq<seq<Rate>>, precisionList: seq<seq<Rate>> := [], [];
      for i := 0 to |names|
        invariant |recallList| == |precisionList| == i
        invariant forall j :: 0 <= j < i ==> Scored(candidates[j], truth.nVariants, cat, recallList[j], precisionList[j])
      {
        var a := candidates[i];
        var _, _, curveRecalls, curvePrecision := Sweep(a.mapqs, a.isCorrect, truth.nVariants, cat, MapqIntervals);
        recallList, precisionList := recallList + [curveRecalls], precisionList + [curvePrecision];
      }
      var recalls, precision := Zip(names, recallList), Zip(names, precisionList);
      curves := RocCurves(recalls, precision);
    }

    /**
      `create_roc_plots` without the plot: classify every candidate, then sweep each one.
      An unknown `type` raises once the first candidate is reached, so with no candidates
      it does not.
    */
    method CreateRocPlots() returns (r: Result<RocCurves, ComparerError>)
      requires Valid()
      modifies candidates
      ensures Valid()
      ensures SameColumns(truthAlignments) && truthAlignments.nVariants == old(truthAlignments.nVariants)
      ensures forall j :: 0 <= j < |candidates| ==>
        SameColumns(candidates[j]) &&
        Classified(candidates[j], truthAlignments.chromosomes, truthAlignments.positions, truthAlignments.nVariants)
      ensures r.Err? <==> |names| > 0 && ParseCategory(kind).None?
      ensures r.Err? ==> r.error == InvalidType(kind)
      ensures r.Ok? ==> forall name :: (name in r.value.recalls <==> name in names) &&
                                        (name in r.value.precision <==> name in names)
      ensures r.Ok? && |names| > 0 ==> forall j :: 0 <= j < |names| ==>
        Scored(candidates[j], truthAlignments.nVariants, ParseCategory(kind).value,
               r.value.recalls[names[j]], r.value.precision[names[j]])
    {
      SetAllCorrectness();
      var cat := ParseCategory(kind);
      if cat.None? {
        if |names| > 0 {
          return Err(InvalidType(kind));
        }
        return Ok(RocCurves(map[], map[]));
      }
      var curves := SweepAll(cat.value);
      return Ok(curves);
    }

    /**
      `get_wrong_alignments_correct_by_other(wrong_by, correct_by)`: the read ids marked
      correct for `correct_by`, marked wrong for `wrong_by` and given MAPQ at least 30 by
      `wrong_by`. `None` where a name is missing or a candidate has no correctness yet.
    */
    method GetWrongAlignmentsCorrectByOther(wrongBy: string, correctBy: string) returns (r: Option<set<nat>>)
      requires IsDictionary()
      ensures r.None? <==>
        !(wrongBy in names && correctBy in names &&
          candidates[Lookup(names, wrongBy).value].isCorrect != null &&
          candidates[Lookup(names, correctBy).value].isCorrect != null)
      ensures r.Some? ==>
        var wrong, correct := candidates[Lookup(names, wrongBy).value], candidates[Lookup(names, correctBy).value];
        forall i: nat :: i in r.value <==>
          i < correct.isCorrect.Length && correct.isCorrect[i] != 0 &&
          i < wrong.isCorrect.Length && wrong.isCorrect[i] == 0 &&
          i < wrong.mapqs.Length && wrong.mapqs[i] >= ConfidentMapq
    {
      var correctAt, wrongAt := Lookup(names, correctBy), Lookup(names, wrongBy);
      if correctAt.None? || wrongAt.None? {
        return None;
      }
      var correct, wrong := candidates[correctAt.value], candidates[wrongAt.value];
      if correct.isCorrect == null || wrong.isCorrect == null {
        return None;
      }
      var correctFlags, wrongFlags, wrongMapqs := correct.isCorrect[..], wrong.isCorrect[..], wrong.mapqs[..];
      var selectionCorrect := set i: nat | i < |correctFlags| && correctFlags[i] != 0;
      var selectionWrong := set i: nat | i < |wrongFlags| && wrongFlags[i] == 0;
      var selectionMapq := set i: nat | i < |wrongMapqs| && wrongMapqs[i] >= ConfidentMapq;
      return Some(selectionCorrect * selectionWrong * selectionMapq);
    }
  }
}
