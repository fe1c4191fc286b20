/** Quarantine of price providers that deviate from the median of all. */
module ProviderOutliers {
  import opened Decimals
  import opened Sorting

  /** The configured deviation limit, unless another is given. */
  const LIMIT := 0.005

  datatype Quote = Quote(provider: string, price: real)

  datatype Evaluation = Evaluation(quarantined: seq<string>, valid: seq<string>, median: real,
                                   deviations: map<string, real>, disagreement: bool, forceWait: bool)

  // ---------------------------------------------------------------------------
  // Sorting and the median
  // ---------------------------------------------------------------------------

  const BY_VALUE := (x: real) => x

  function Sorted(s: seq<real>): (r: seq<real>)
    ensures |r| == |s| && Ascending(r, BY_VALUE)
  {
    Sort(s, BY_VALUE)
  }

  function Median(prices: seq<real>): real
    requires prices != []
  {
    var s, k := Sorted(prices), |prices| / 2;
    if |prices| % 2 == 1 then s[k] else (s[k - 1] + s[k]) / 2.0
  }

  lemma LastIsGreatest(s: seq<real>, x: real)
    requires Ascending(s, BY_VALUE) && x in multiset(s)
    ensures s != [] && x <= s[|s| - 1]
  {
    var j :| 0 <= j < |s| && s[j] == x;
    AscendingAt(s, BY_VALUE, j, |s| - 1);
  }

  lemma FrontMultiset(s: seq<real>)
    requires s != []
    ensures multiset(s[..|s| - 1]) == multiset(s) - multiset{s[|s| - 1]}
  {
    assert s == s[..|s| - 1] + [s[|s| - 1]];
  }

  lemma SameLast(s: seq<real>, r: seq<real>)
    requires Ascending(s, BY_VALUE) && Ascending(r, BY_VALUE) && multiset(s) == multiset(r) && s != [] && r != []
    ensures s[|s| - 1] == r[|r| - 1] && multiset(s[..|s| - 1]) == multiset(r[..|r| - 1])
  {
    assert s[|s| - 1] in multiset(r) && r[|r| - 1] in multiset(s);
    LastIsGreatest(r, s[|s| - 1]);
    LastIsGreatest(s, r[|r| - 1]);
    FrontMultiset(s);
    FrontMultiset(r);
  }

  /** There is one way to sort. */
  lemma {:induction false} SortedUnique(s: seq<real>, r: seq<real>)
    requires Ascending(s, BY_VALUE) && Ascending(r, BY_VALUE) && multiset(s) == multiset(r)
    ensures s == r
  {
    assert |s| == |multiset(s)| == |multiset(r)| == |r|;
    if s != [] {
      SameLast(s, r);
      SortedUnique(s[..|s| - 1], r[..|r| - 1]);
      assert s == s[..|s| - 1] + [s[|s| - 1]];
    }
  }

  /** The order in which the providers are listed does not matter. */
  lemma MedianOfAnyOrder(prices: seq<real>, other: seq<real>)
    requires prices != [] && multiset(prices) == multiset(other)
    ensures other != [] && Median(prices) == Median(other)
  {
    assert |prices| == |multiset(prices)| == |multiset(other)| == |other|;
    SortPermutes(prices, BY_VALUE);
    SortPermutes(other, BY_VALUE);
    SortedUnique(Sorted(prices), Sorted(other));
  }

  // ---------------------------------------------------------------------------
  // Majorities
  // ---------------------------------------------------------------------------

  function CountIn(s: seq<real>, lo: real, hi: real): nat {
    if s == [] then 0
    else
      var n := |s| - 1;
      CountIn(s[..n], lo, hi) + if lo <= s[n] <= hi then 1 else 0
  }

  lemma {:induction false} CountInsert(x: real, s: seq<real>, lo: real, hi: real)
    requires Ascending(s, BY_VALUE)
    ensures CountIn(Insert(x, s, BY_VALUE), lo, hi) == CountIn(s, lo, hi) + if lo <= x <= hi then 1 else 0
  {
    var n := |s| - 1;
    if s == [] || s[n] <= x {
      assert Insert(x, s, BY_VALUE)[..|s|] == s;
    } else {
      CountInsert(x, s[..n], lo, hi);
      assert Insert(x, s, BY_VALUE)[..|s|] == Insert(x, s[..n], BY_VALUE);
    }
  }

  lemma {:induction false} CountSorted(s: seq<real>, lo: real, hi: real)
    ensures CountIn(Sorted(s), lo, hi) == CountIn(s, lo, hi)
  {
    if s != [] {
      var n := |s| - 1;
      CountSorted(s[..n], lo, hi);
      CountInsert(s[n], Sorted(s[..n]), lo, hi);
    }
  }

  /** Elements from `i` up to `j` outside the range leave at most the others inside. */
  lemma {:induction false} CountAvoiding(s: seq<real>, lo: real, hi: real, i: nat, j: nat)
    requires i <= j <= |s| && forall m :: i <= m < j ==> !(lo <= s[m] <= hi)
    ensures CountIn(s, lo, hi) <= |s| - (j - i)
  {
    if s != [] {
      var n := |s| - 1;
      CountAvoiding(s[..n], lo, hi, if i <= n then i else n, if j <= n then j else n);
    }
  }

  lemma BelowRange(s: seq<real>, lo: real, hi: real, k: nat)
    requires Ascending(s, BY_VALUE) && k < |s| && s[k] < lo
    ensures CountIn(s, lo, hi) <= |s| - (k + 1)
  {
    forall m | 0 <= m < k + 1 ensures s[m] < lo {
      AscendingAt(s, BY_VALUE, m, k);
    }
    CountAvoiding(s, lo, hi, 0, k + 1);
  }

  lemma AboveRange(s: seq<real>, lo: real, hi: real, k: nat)
    requires Ascending(s, BY_VALUE) && k < |s| && s[k] > hi
    ensures CountIn(s, lo, hi) <= k
  {
    forall m | k <= m < |s| ensures s[m] > hi {
      AscendingAt(s, BY_VALUE, k, m);
    }
    CountAvoiding(s, lo, hi, k, |s|);
  }

  /** A strict majority inside a range holds the median inside it, for odd and even numbers of prices. */
  lemma MajorityHoldsMedian(prices: seq<real>, lo: real, hi: real)
    requires 2 * CountIn(prices, lo, hi) > |prices|
    ensures prices != [] && lo <= Median(prices) <= hi
  {
    var s, n, k := Sorted(prices), |prices|, |prices| / 2;
    CountSorted(prices, lo, hi);
    var below := if n % 2 == 1 then k else k - 1;
    if s[below] < lo {
      BelowRange(s, lo, hi, below);
    }
    if s[k] > hi {
      AboveRange(s, lo, hi, k);
    }
    AscendingAt(s, BY_VALUE, below, k);
  }

  // ---------------------------------------------------------------------------
  // Evaluation
  // ---------------------------------------------------------------------------

  ghost predicate DistinctProviders(qs: seq<Quote>) {
    forall i, j :: 0 <= i < j < |qs| ==> qs[i].provider != qs[j].provider
  }

  function Prices(qs: seq<Quote>): (s: seq<real>)
    ensures |s| == |qs|
  {
    seq(|qs|, i requires 0 <= i < |qs| => qs[i].price)
  }

  function Deviation(price: real, median: real): real {
    if median > 0.0 then Abs(price - median) / median else 0.0
  }

  predicate IsOutlier(price: real, median: real, limit: real) {
    Deviation(price, median) > limit
  }

  lemma OutlierMeans(price: real, median: real, limit: real)
    requires limit >= 0.0
    ensures IsOutlier(price, median, limit) <==> median > 0.0 && Abs(price - median) > limit * median
  {
    if median > 0.0 {
      var d := Abs(price - median) / median;
      assert d * median == Abs(price - median);
      if d > limit {
        assert (d - limit) * median > 0.0;
      } else {
        assert (limit - d) * median >= 0.0;
      }
    }
  }

  /** The providers of the quotes that are, or are not, outliers, in order. */
  function Split(qs: seq<Quote>, median: real, limit: real, outliers: bool): seq<string> {
    if qs == [] then []
    else
      var n := |qs| - 1;
      Split(qs[..n], median, limit, outliers)
        + if IsOutlier(qs[n].price, median, limit) == outliers then [qs[n].provider] else []
  }

  lemma {:induction false} SplitMembers(qs: seq<Quote>, median: real, limit: real, outliers: bool, p: string)
    ensures p in Split(qs, median, limit, outliers) <==>
      exists i :: 0 <= i < |qs| && qs[i].provider == p && IsOutlier(qs[i].price, median, limit) == outliers
  {
    if qs != [] {
      var n := |qs| - 1;
      SplitMembers(qs[..n], median, limit, outliers, p);
      assert forall i :: 0 <= i < n ==> qs[i] == qs[..n][i];
    }
  }

  /** Relative divergence of two prices, as the pair rule measures it. */
  function PairDivergence(p: real, q: real): real {
    var least := if p <= q then p else q;
    if least > 0.0 then Abs(p - q) / least else 0.0
  }

  function Deviations(qs: seq<Quote>, median: real): map<string, real> {
    if qs == [] then map[]
    else
      var n := |qs| - 1;
      Deviations(qs[..n], median)[qs[n].provider := Deviation(qs[n].price, median)]
  }

  /** The pair rule for two sources, the median rule otherwise; a single source is its own median. */
  function Evaluate(qs: seq<Quote>, limit: real): Evaluation {
    if qs == [] then Evaluation([], [], 0.0, map[], false, false)
    else if |qs| == 2 then
      var d := PairDivergence(qs[0].price, qs[1].price);
      Evaluation([], if d > limit then [] else [qs[0].provider, qs[1].provider], (qs[0].price + qs[1].price) / 2.0,
                 map[qs[0].provider := d / 2.0, qs[1].provider := d / 2.0], d > limit, d > limit)
    else
      var median := Median(Prices(qs));
      var valid := Split(qs, median, limit, false);
      Evaluation(Split(qs, median, limit, true), valid, median, Deviations(qs, median), false, valid == [])
  }

  method EvaluateProviderOutliers(qs: seq<Quote>, limit: real) returns (e: Evaluation)
    requires DistinctProviders(qs)
    ensures e == Evaluate(qs, limit)
  {
    if qs == [] {
      return Evaluation([], [], 0.0, map[], false, false);
    }
    if |qs| == 2 {
      var d := PairDivergence(qs[0].price, qs[1].price);
      var median := (qs[0].price + qs[1].price) / 2.0;
      var deviations := map[qs[0].provider := d / 2.0, qs[1].provider := d / 2.0];
      if d > limit {
        return Evaluation([], [], median, deviations, true, true);
      }
      return Evaluation([], [qs[0].provider, qs[1].provider], median, deviations, false, false);
    }
    var median := Median(Prices(qs));
    var quarantined, valid: seq<string> := [], [];
    var deviations: map<string, real> := map[];
    for k := 0 to |qs|
      invariant quarantined == Split(qs[..k], median, limit, true) && valid == Split(qs[..k], median, limit, false)
      invariant deviations == Deviations(qs[..k], median)
    {
      assert qs[..k + 1][..k] == qs[..k];
      var q := qs[k];
      var dev := Deviation(q.price, median);
      deviations := deviations[q.provider := dev];
      if dev > limit {
        quarantined := quarantined + [q.provider];
      } else {
        valid := valid + [q.provider];
      }
    }
    assert qs[..|qs|] == qs;
    return Evaluation(quarantined, valid, median, deviations, false, valid == []);
  }

  // ---------------------------------------------------------------------------
  // What an evaluation guarantees
  // ---------------------------------------------------------------------------

  /**
   With other than two sources every provider is either quarantined or valid, never both, and by
   its own deviation.
   */
  lemma PartitionsProviders(qs: seq<Quote>, limit: real, i: nat)
    requires DistinctProviders(qs) && |qs| != 2 && i < |qs|
    ensures
      var e := Evaluate(qs, limit);
      && (qs[i].provider in e.quarantined <==> IsOutlier(qs[i].price, e.median, limit))
      && (qs[i].provider in e.valid <==> !IsOutlier(qs[i].price, e.median, limit))
      && qs[i].provider in e.deviations && e.deviations[qs[i].provider] == Deviation(qs[i].price, e.median)
      && |e.quarantined| + |e.valid| == |qs|
  {
    var median := Evaluate(qs, limit).median;
    SplitMembers(qs, median, limit, true, qs[i].provider);
    SplitMembers(qs, median, limit, false, qs[i].provider);
    SplitSizes(qs, median, limit);
    OwnDeviation(qs, median, i);
  }

  lemma {:induction false} OwnDeviation(qs: seq<Quote>, median: real, i: nat)
    requires DistinctProviders(qs) && i < |qs|
    ensures qs[i].provider in Deviations(qs, median)
    ensures Deviations(qs, median)[qs[i].provider] == Deviation(qs[i].price, median)
  {
    var n := |qs| - 1;
    if i < n {
      OwnDeviation(qs[..n], median, i);
    }
  }

  lemma {:induction false} SplitSizes(qs: seq<Quote>, median: real, limit: real)
    ensures |Split(qs, median, limit, true)| + |Split(qs, median, limit, false)| == |qs|
  {
    if qs != [] {
      SplitSizes(qs[..|qs| - 1], median, limit);
    }
  }

  lemma ProductSign(x: real, y: real)
    ensures x >= 0.0 && y >= 0.0 ==> x * y >= 0.0
    ensures y > 0.0 && x * y >= 0.0 ==> x >= 0.0
  {
  }

  lemma InsideIsValid(price: real, median: real, lo: real, hi: real, limit: real)
    requires 0.0 < lo <= price <= hi && lo <= median <= hi && hi - lo <= limit * lo
    ensures !IsOutlier(price, median, limit) && limit >= 0.0
  {
    ProductSign(limit, lo);
    ProductSign(limit, median - lo);
    assert limit * (median - lo) == limit * median - limit * lo;
    OutlierMeans(price, median, limit);
  }

  lemma OutsideIsOutlier(price: real, median: real, lo: real, hi: real, limit: real)
    requires 0.0 < lo <= median <= hi && limit >= 0.0
    requires (price < (1.0 - limit) * lo && price < (1.0 - limit) * hi) || price > (1.0 + limit) * hi
    ensures IsOutlier(price, median, limit)
  {
    ProductSign(1.0 + limit, hi - median);
    assert (1.0 + limit) * (hi - median) == (1.0 + limit) * hi - median - limit * median;
    if limit <= 1.0 {
      ProductSign(1.0 - limit, median - lo);
      assert (1.0 - limit) * (median - lo) == median - limit * median - (1.0 - limit) * lo;
    } else {
      ProductSign(limit - 1.0, hi - median);
      assert (limit - 1.0) * (hi - median) == median - limit * median - (1.0 - limit) * hi;
    }
    OutlierMeans(price, median, limit);
  }

  /**
   Breakdown bound: while a strict majority agrees to within the limit, all of it stays valid,
   and every price clearly outside is quarantined, whatever the minority reports.
   */
  lemma MajorityPrevails(qs: seq<Quote>, limit: real, lo: real, hi: real, i: nat)
    requires DistinctProviders(qs) && |qs| != 2 && i < |qs|
    requires 0.0 < lo && hi - lo <= limit * lo && 2 * CountIn(Prices(qs), lo, hi) > |qs|
    ensures
      var e, q := Evaluate(qs, limit), qs[i];
      && lo <= e.median <= hi && !e.forceWait
      && (lo <= q.price <= hi ==> q.provider in e.valid && q.provider !in e.quarantined)
      && ((q.price < (1.0 - limit) * lo && q.price < (1.0 - limit) * hi) || q.price > (1.0 + limit) * hi ==>
            q.provider in e.quarantined && q.provider !in e.valid)
  {
    var median := Evaluate(qs, limit).median;
    MajorityHoldsMedian(Prices(qs), lo, hi);
    PartitionsProviders(qs, limit, i);
    var j := SomeoneIn(Prices(qs), lo, hi);
    PartitionsProviders(qs, limit, j);
    InsideIsValid(qs[j].price, median, lo, hi, limit);
    if lo <= qs[i].price <= hi {
      InsideIsValid(qs[i].price, median, lo, hi, limit);
    }
    if (qs[i].price < (1.0 - limit) * lo && qs[i].price < (1.0 - limit) * hi) || qs[i].price > (1.0 + limit) * hi {
      OutsideIsOutlier(qs[i].price, median, lo, hi, limit);
    }
  }

  lemma {:induction false} SomeoneIn(s: seq<real>, lo: real, hi: real) returns (i: nat)
    requires CountIn(s, lo, hi) > 0
    ensures i < |s| && lo <= s[i] <= hi
  {
    i := |s| - 1;
    if !(lo <= s[i] <= hi) {
      i := SomeoneIn(s[..i], lo, hi);
    }
  }

  lemma {:induction false} AllOutliers(qs: seq<Quote>, median: real, limit: real)
    requires forall i :: 0 <= i < |qs| ==> IsOutlier(qs[i].price, median, limit)
    ensures Split(qs, median, limit, false) == []
  {
    if qs != [] {
      AllOutliers(qs[..|qs| - 1], median, limit);
    }
  }

  lemma HalvesMedian(ps: seq<real>)
    requires ps == [100.0, 100.0, 102.0, 102.0]
    ensures CountIn(ps, 100.0, 100.0) == 2 && Median(ps) == 101.0
  {
    var a, b, c := [100.0], [100.0, 100.0], [100.0, 100.0, 102.0];
    assert ps[..3] == c && c[..2] == b && b[..1] == a && a[..0] == [];
    assert CountIn(a, 100.0, 100.0) == 1 && CountIn(b, 100.0, 100.0) == 2 && CountIn(c, 100.0, 100.0) == 2;
    assert Ascending(a, BY_VALUE) && Ascending(b, BY_VALUE) && Ascending(c, BY_VALUE) && Ascending(ps, BY_VALUE);
    SortPermutes(ps, BY_VALUE);
    SortedUnique(Sorted(ps), ps);
  }

  const HALVES := [Quote("a", 100.0), Quote("b", 100.0), Quote("c", 102.0), Quote("d", 102.0)]

  lemma HalvesAreOutliers()
    ensures Split(HALVES, 101.0, LIMIT, false) == []
  {
    OutlierMeans(100.0, 101.0, LIMIT);
    OutlierMeans(102.0, 101.0, LIMIT);
    assert forall i :: 0 <= i < |HALVES| ==> HALVES[i].price == 100.0 || HALVES[i].price == 102.0;
    AllOutliers(HALVES, 101.0, LIMIT);
  }

  /** Half of the sources is not enough: even those that agree exactly can be quarantined. */
  lemma HalfIsNotEnough()
    ensures DistinctProviders(HALVES) && 2 * CountIn(Prices(HALVES), 100.0, 100.0) == |HALVES|
    ensures LIMIT == 0.005 && Evaluate(HALVES, LIMIT).valid == [] && Evaluate(HALVES, LIMIT).forceWait
  {
    var ps := Prices(HALVES);
    assert ps == [100.0, 100.0, 102.0, 102.0];
    HalvesMedian(ps);
    HalvesAreOutliers();
  }

  /**
   Of two sources none is quarantined; each deviates by half their divergence, the difference
   relative to the lower price; both are valid or both wait.
   */
  lemma PairEvaluation(qs: seq<Quote>, limit: real)
    requires DistinctProviders(qs) && |qs| == 2
    ensures
      var e, p, q := Evaluate(qs, limit), qs[0].price, qs[1].price;
      && e.quarantined == [] && e.median + e.median == p + q && e.deviations.Keys == {qs[0].provider, qs[1].provider}
      && e.deviations[qs[0].provider] == e.deviations[qs[1].provider]
      && (if p > 0.0 && q > 0.0
          then 2.0 * e.deviations[qs[0].provider] * (if p < q then p else q) == Abs(p - q)
          else e.deviations[qs[0].provider] == 0.0)
      && e.valid == (if e.forceWait then [] else [qs[0].provider, qs[1].provider])
      && (e.disagreement <==> e.forceWait)
  {
    assert qs[0].provider != qs[1].provider;
    var p, q := qs[0].price, qs[1].price;
    var least := if p <= q then p else q;
    if least > 0.0 {
      assert Abs(p - q) / least * least == Abs(p - q);
    }
  }

  /** Without sources there is nothing to report, and without a positive median nothing is quarantined. */
  lemma NothingToCompare(qs: seq<Quote>, limit: real)
    requires DistinctProviders(qs) && |qs| != 2
    ensures qs == [] ==> Evaluate(qs, limit) == Evaluation([], [], 0.0, map[], false, false)
    ensures !Evaluate(qs, limit).disagreement
    ensures forall i :: limit >= 0.0 && Evaluate(qs, limit).median <= 0.0 && 0 <= i < |qs| ==>
      qs[i].provider in Evaluate(qs, limit).valid
  {
    forall i | limit >= 0.0 && Evaluate(qs, limit).median <= 0.0 && 0 <= i < |qs|
      ensures qs[i].provider in Evaluate(qs, limit).valid
    {
      PartitionsProviders(qs, limit, i);
    }
  }

  // ---------------------------------------------------------------------------
  // When everything waits
  // ---------------------------------------------------------------------------

  /** The two prices in the middle; the same one for an odd number of sources. */
  function Middle(prices: seq<real>): (real, real)
    requires prices != []
  {
    var s, k := Sorted(prices), |prices| / 2;
    (s[if |prices| % 2 == 1 then k else k - 1], s[k])
  }

  lemma SortedHolds(prices: seq<real>, i: nat) returns (j: nat)
    requires i < |prices|
    ensures j < |prices| && Sorted(prices)[j] == prices[i]
  {
    SortPermutes(prices, BY_VALUE);
    assert prices[i] in multiset(Sorted(prices));
    j :| j < |prices| && Sorted(prices)[j] == prices[i];
  }

  /** No price lies between the two in the middle. */
  lemma NothingBetween(s: seq<real>, j: nat, k: nat)
    requires Ascending(s, BY_VALUE) && j < |s| && 0 < k < |s|
    ensures s[j] <= s[k - 1] || s[j] >= s[k]
  {
    if j < k {
      AscendingAt(s, BY_VALUE, j, k - 1);
    } else {
      AscendingAt(s, BY_VALUE, k, j);
    }
  }

  /** Some source is as near to the median as the middle ones, and none is nearer. */
  lemma NearestIsMiddle(prices: seq<real>, i: nat)
    requires i < |prices|
    ensures
      var (a, b) := Middle(prices);
      && a <= b && Median(prices) == (a + b) / 2.0
      && Abs(prices[i] - Median(prices)) >= (b - a) / 2.0
  {
    var s, k := Sorted(prices), |prices| / 2;
    if |prices| % 2 == 0 {
      var j := SortedHolds(prices, i);
      NothingBetween(s, j, k);
      AscendingAt(s, BY_VALUE, k - 1, k);
    }
  }

  lemma MiddleIsAPrice(prices: seq<real>) returns (i: nat)
    requires prices != []
    ensures i < |prices| && prices[i] == Middle(prices).0
  {
    SortPermutes(prices, BY_VALUE);
    var a := Middle(prices).0;
    assert a in multiset(Sorted(prices));
    assert a in multiset(prices);
    i :| i < |prices| && prices[i] == a;
  }

  lemma WaitingMiddle(qs: seq<Quote>, limit: real)
    requires DistinctProviders(qs) && qs != [] && |qs| != 2 && Evaluate(qs, limit).forceWait
    ensures IsOutlier(Middle(Prices(qs)).0, Evaluate(qs, limit).median, limit)
  {
    var i := MiddleIsAPrice(Prices(qs));
    PartitionsProviders(qs, limit, i);
  }

  lemma ValidMiddle(qs: seq<Quote>, limit: real)
    requires DistinctProviders(qs) && qs != [] && |qs| != 2 && limit >= 0.0 && !Evaluate(qs, limit).forceWait
    ensures !IsOutlier(Middle(Prices(qs)).0, Evaluate(qs, limit).median, limit)
  {
    var e := Evaluate(qs, limit);
    SplitMembers(qs, e.median, limit, false, e.valid[0]);
    var i :| 0 <= i < |qs| && qs[i].provider == e.valid[0] && IsOutlier(qs[i].price, e.median, limit) == false;
    NearestIsMiddle(Prices(qs), i);
    NearerIsValid(qs[i].price, Middle(Prices(qs)).0, e.median, limit);
  }

  /** With one or at least three sources, all must wait exactly when the two in the middle lie too far apart. */
  lemma ForceWaitIff(qs: seq<Quote>, limit: real)
    requires DistinctProviders(qs) && qs != [] && |qs| != 2 && limit >= 0.0
    ensures
      var (a, b) := Middle(Prices(qs));
      Evaluate(qs, limit).forceWait <==> a + b > 0.0 && b - a > limit * (a + b)
  {
    var (a, b) := Middle(Prices(qs));
    NearestIsMiddle(Prices(qs), 0);
    MiddleIsOutlierIff(a, b, limit);
    if Evaluate(qs, limit).forceWait {
      WaitingMiddle(qs, limit);
    } else {
      ValidMiddle(qs, limit);
    }
  }

  lemma MiddleIsOutlierIff(a: real, b: real, limit: real)
    requires a <= b && limit >= 0.0
    ensures IsOutlier(a, (a + b) / 2.0, limit) <==> a + b > 0.0 && b - a > limit * (a + b)
  {
    OutlierMeans(a, (a + b) / 2.0, limit);
    assert limit * ((a + b) / 2.0) == limit * (a + b) / 2.0;
  }

  /** What is no nearer to the median than a valid price is valid only if that is. */
  lemma NearerIsValid(price: real, nearer: real, median: real, limit: real)
    requires limit >= 0.0 && Abs(nearer - median) <= Abs(price - median) && !IsOutlier(price, median, limit)
    ensures !IsOutlier(nearer, median, limit)
  {
    OutlierMeans(price, median, limit);
    OutlierMeans(nearer, median, limit);
  }

  /** So an odd number of sources never makes everything wait. */
  lemma OddNeverWaits(qs: seq<Quote>, limit: real)
    requires DistinctProviders(qs) && |qs| % 2 == 1 && limit >= 0.0
    ensures !Evaluate(qs, limit).forceWait
  {
    ForceWaitIff(qs, limit);
    var (a, b) := Middle(Prices(qs));
    if a + b > 0.0 {
      assert limit * (a + b) >= 0.0;
    }
  }

  /** Two sources wait exactly when they differ by more than the limit of the smaller, in either order. */
  lemma PairWaitsIff(qs: seq<Quote>, limit: real)
    requires |qs| == 2 && limit >= 0.0
    ensures
      var p, q, e := qs[0].price, qs[1].price, Evaluate(qs, limit);
      && (e.forceWait <==> p > 0.0 && q > 0.0 && (p - q > limit * q || q - p > limit * p))
      && (e.forceWait <==> e.valid == [])
  {
    PairDivergenceMeans(qs[0].price, qs[1].price, limit);
  }

  lemma PairDivergenceMeans(p: real, q: real, limit: real)
    requires limit >= 0.0
    ensures PairDivergence(p, q) > limit <==> p > 0.0 && q > 0.0 && (p - q > limit * q || q - p > limit * p)
  {
    var least, other := if p <= q then p else q, if p <= q then q else p;
    if least > 0.0 {
      OutlierMeans(other, least, limit);
      assert limit * other >= 0.0;
    }
  }
}
