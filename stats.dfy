/** Session statistics of the monitoring hook: the bulk summary computed from a full
    list of depth readings (`calculateSessionStatistics`) and the constant-time update
    applied for each `depth_data` message. Depths are exact reals (centimetres). */
module SessionStats {

  /** A reading strictly below this depth is shallow ("dangkal"). */
  const ShallowBelow: real := 5.0
  /** A reading strictly above this depth is deep ("dalam"). */
  const DeepAbove: real := 6.0

  predicate IsShallow(d: real) { d < ShallowBelow }
  predicate IsDeep(d: real) { d > DeepAbove }

  /** `CPRStatistics`: `percentageDangkal` is `percentageShallow`, `percentageDalam`
      is `percentageDeep`. */
  datatype Stats = Stats(
    totalCompressions: nat,
    percentageShallow: real,
    percentageDeep: real,
    averageDepth: real)

  /** `initialStatistics`: every field zero. */
  const Initial: Stats := Stats(0, 0.0, 0.0, 0.0)

  function Sum(xs: seq<real>): real
  {
    if xs == [] then 0.0 else Sum(xs[..|xs| - 1]) + xs[|xs| - 1]
  }

  function ShallowCount(xs: seq<real>): (k: nat)
    ensures k <= |xs|
  {
    if xs == [] then 0
    else ShallowCount(xs[..|xs| - 1]) + (if IsShallow(xs[|xs| - 1]) then 1 else 0)
  }

  function DeepCount(xs: seq<real>): (k: nat)
    ensures k <= |xs|
  {
    if xs == [] then 0
    else DeepCount(xs[..|xs| - 1]) + (if IsDeep(xs[|xs| - 1]) then 1 else 0)
  }

  /** `calculateSessionStatistics`: all zero on no readings, otherwise the count,
      the shallow and deep shares in percent and the mean. */
  function Summarize(xs: seq<real>): (s: Stats)
    ensures s.totalCompressions == |xs|
    ensures xs == [] ==> s == Initial
  {
    if |xs| == 0 then Initial
    else
      var n := |xs| as real;
      Stats(|xs|,
            (ShallowCount(xs) as real / n) * 100.0,
            (DeepCount(xs) as real / n) * 100.0,
            Sum(xs) / n)
  }

  /** The incremental update of the `depth_data` handler: the previous shallow and
      deep counts are recovered from the percentages and the new reading added. */
  function Record(prev: Stats, d: real): (s: Stats)
    ensures s.totalCompressions == prev.totalCompressions + 1
  {
    var total := prev.totalCompressions + 1;
    var n := total as real;
    var shallowPrev := prev.percentageShallow / 100.0 * prev.totalCompressions as real;
    var deepPrev := prev.percentageDeep / 100.0 * prev.totalCompressions as real;
    var shallowNow := shallowPrev + (if IsShallow(d) then 1.0 else 0.0);
    var deepNow := deepPrev + (if IsDeep(d) then 1.0 else 0.0);
    Stats(total,
          shallowNow / n * 100.0,
          deepNow / n * 100.0,
          (prev.averageDepth * prev.totalCompressions as real + d) / n)
  }

  /** Repeated incremental updates, oldest reading first. */
  function Replay(s: Stats, xs: seq<real>): Stats
  {
    if xs == [] then s else Record(Replay(s, xs[..|xs| - 1]), xs[|xs| - 1])
  }

  lemma SnocParts(xs: seq<real>, d: real)
    ensures (xs + [d])[..|xs|] == xs && (xs + [d])[|xs|] == d
  {
  }

  /** Recovering a total from a mean and adding one value. */
  lemma MeanStep(sum: real, d: real, n: real)
    requires n > 0.0
    ensures (sum / n * n + d) / (n + 1.0) == (sum + d) / (n + 1.0)
  {
    assert sum / n * n == sum;
  }

  /** Recovering a count from a percentage and adding zero or one. */
  lemma ShareStep(k: real, b: real, n: real)
    requires n > 0.0
    ensures (k / n * 100.0) / 100.0 * n + b == k + b
  {
    assert (k / n * 100.0) / 100.0 == k / n;
    assert k / n * n == k;
  }

  /** The update applied to a record that summarizes `k` readings with sum `sum`,
      `a` shallow and `c` deep ones. */
  lemma RecordOfSummary(k: nat, a: real, c: real, sum: real, d: real)
    requires k > 0
    ensures var n := k as real;
      Record(Stats(k, a / n * 100.0, c / n * 100.0, sum / n), d) ==
      Stats(k + 1,
            (a + (if IsShallow(d) then 1.0 else 0.0)) / (n + 1.0) * 100.0,
            (c + (if IsDeep(d) then 1.0 else 0.0)) / (n + 1.0) * 100.0,
            (sum + d) / (n + 1.0))
  {
    var n := k as real;
    assert (k + 1) as real == n + 1.0;
    MeanStep(sum, d, n);
    ShareStep(a, if IsShallow(d) then 1.0 else 0.0, n);
    ShareStep(c, if IsDeep(d) then 1.0 else 0.0, n);
  }

  /** The O(1) update agrees exactly with recomputing the summary over the
      readings with the new one appended. */
  lemma {:induction false} RecordMatchesSummarize(xs: seq<real>, d: real)
    ensures Record(Summarize(xs), d) == Summarize(xs + [d])
  {
    SnocParts(xs, d);
    var ys := xs + [d];
    assert Sum(ys) == Sum(xs) + d;
    assert ShallowCount(ys) as real == ShallowCount(xs) as real + (if IsShallow(d) then 1.0 else 0.0);
    assert DeepCount(ys) as real == DeepCount(xs) as real + (if IsDeep(d) then 1.0 else 0.0);
    assert (|xs| + 1) as real == |xs| as real + 1.0;
    if xs != [] {
      RecordOfSummary(|xs|, ShallowCount(xs) as real, DeepCount(xs) as real, Sum(xs), d);
    }
  }

  /** Feeding the readings one by one from the initial record gives the bulk summary. */
  lemma {:induction false} ReplayMatchesSummarize(xs: seq<real>)
    ensures Replay(Initial, xs) == Summarize(xs)
  {
    if xs != [] {
      var init := xs[..|xs| - 1];
      ReplayMatchesSummarize(init);
      RecordMatchesSummarize(init, xs[|xs| - 1]);
      assert init + [xs[|xs| - 1]] == xs;
    }
  }

  /** A reading is never both shallow and deep, so the two counts share the total. */
  lemma {:induction false} CountsDisjoint(xs: seq<real>)
    ensures ShallowCount(xs) + DeepCount(xs) <= |xs|
  {
    if xs != [] {
      CountsDisjoint(xs[..|xs| - 1]);
    }
  }

  /** Two disjoint counts out of `n`, as percentages. */
  lemma SharesBounded(a: real, c: real, n: real)
    requires n > 0.0 && 0.0 <= a && 0.0 <= c && a + c <= n
    ensures 0.0 <= a / n * 100.0 <= 100.0 && 0.0 <= c / n * 100.0 <= 100.0
    ensures a / n * 100.0 + c / n * 100.0 <= 100.0
  {
    assert a / n * 100.0 + c / n * 100.0 == (a + c) / n * 100.0;
    assert (a + c) / n <= n / n;
  }

  /** Both percentages lie in [0, 100] and together never exceed 100. */
  lemma PercentagesBounded(xs: seq<real>)
    ensures var s := Summarize(xs);
      0.0 <= s.percentageShallow <= 100.0 && 0.0 <= s.percentageDeep <= 100.0 &&
      s.percentageShallow + s.percentageDeep <= 100.0
  {
    CountsDisjoint(xs);
    if xs != [] {
      SharesBounded(ShallowCount(xs) as real, DeepCount(xs) as real, |xs| as real);
    }
  }

  lemma {:induction false} SumBounded(xs: seq<real>, lo: real, hi: real)
    requires forall i :: 0 <= i < |xs| ==> lo <= xs[i] <= hi
    ensures lo * |xs| as real <= Sum(xs) <= hi * |xs| as real
  {
    if xs != [] {
      SumBounded(xs[..|xs| - 1], lo, hi);
    }
  }

  lemma MeanBounded(sum: real, n: real, lo: real, hi: real)
    requires n > 0.0 && lo * n <= sum <= hi * n
    ensures lo <= sum / n <= hi
  {
    assert lo == lo * n / n && hi == hi * n / n;
  }

  /** The mean lies between the smallest and the largest reading. */
  lemma AverageWithinRange(xs: seq<real>, lo: real, hi: real)
    requires xs != []
    requires forall i :: 0 <= i < |xs| ==> lo <= xs[i] <= hi
    ensures lo <= Summarize(xs).averageDepth <= hi
  {
    SumBounded(xs, lo, hi);
    MeanBounded(Sum(xs), |xs| as real, lo, hi);
  }

  /** Readings 3, 5, 6 and 7 cm: four compressions averaging 5.25 cm, one shallow
      and one deep, since 5 and 6 count toward neither. */
  lemma FourReadings()
    ensures Summarize([3.0, 5.0, 6.0, 7.0]) == Stats(4, 25.0, 25.0, 5.25)
  {
    var x1, x2, x3, x4 := [3.0], [3.0, 5.0], [3.0, 5.0, 6.0], [3.0, 5.0, 6.0, 7.0];
    assert x4[..3] == x3 && x3[..2] == x2 && x2[..1] == x1 && x1[..0] == [];
    assert ShallowCount(x1) == 1 && DeepCount(x1) == 0 && Sum(x1) == 3.0;
    assert ShallowCount(x2) == 1 && DeepCount(x2) == 0 && Sum(x2) == 8.0;
    assert ShallowCount(x3) == 1 && DeepCount(x3) == 0 && Sum(x3) == 14.0;
    assert ShallowCount(x4) == 1 && DeepCount(x4) == 1 && Sum(x4) == 21.0;
  }
}
