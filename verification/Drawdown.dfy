/** Drawdown in risk units of a sequence of trades, combined and split by side. */
module Drawdown {
  import opened Wrappers

  // ---------------------------------------------------------------------------
  // The running loop
  // ---------------------------------------------------------------------------

  function Total(rs: seq<real>): real {
    if rs == [] then 0.0 else Total(rs[..|rs| - 1]) + rs[|rs| - 1]
  }

  /** How much is lost from after trade `i` to after trade `j`. */
  ghost function Fall(rs: seq<real>, i: nat, j: nat): real
    requires i <= j <= |rs|
  {
    Total(rs[..i]) - Total(rs[..j])
  }

  /** `d` is the largest fall between an earlier and a later point of the equity curve. */
  ghost predicate IsMaxDrawdown(rs: seq<real>, d: real) {
    && (exists i: nat, j: nat :: i <= j <= |rs| && Fall(rs, i, j) == d)
    && (forall i: nat, j: nat :: i <= j <= |rs| ==> Fall(rs, i, j) <= d)
  }

  ghost predicate PeakUpTo(rs: seq<real>, k: nat, top: nat)
    requires k <= |rs|
  {
    top <= k && forall i :: 0 <= i <= k ==> Total(rs[..i]) <= Total(rs[..top])
  }

  ghost predicate WorstUpTo(rs: seq<real>, k: nat, d: real)
    requires k <= |rs|
  {
    forall i, j :: 0 <= i <= j <= k ==> Fall(rs, i, j) <= d
  }

  /** One more trade: the fall from the peak bounds every fall to it. */
  lemma WorstNext(rs: seq<real>, k: nat, top: nat, d: real, d': real)
    requires k < |rs| && WorstUpTo(rs, k, d) && PeakUpTo(rs, k + 1, top) && d <= d' && Fall(rs, top, k + 1) <= d'
    ensures WorstUpTo(rs, k + 1, d')
  {
    forall i, j | 0 <= i <= j <= k + 1 ensures Fall(rs, i, j) <= d' {
      assert j <= k ==> Fall(rs, i, j) <= d;
    }
  }

  lemma PeakNext(rs: seq<real>, k: nat, top: nat)
    requires k < |rs| && PeakUpTo(rs, k, top)
    ensures Total(rs[..k + 1]) == Total(rs[..k]) + rs[k]
    ensures PeakUpTo(rs, k + 1, if Total(rs[..k + 1]) > Total(rs[..top]) then k + 1 else top)
  {
    assert rs[..k + 1][..k] == rs[..k];
  }

  /** The running loop over cumulative and peak value finds the largest fall. */
  method RunningDrawdown(rs: seq<real>) returns (maxDd: real)
    ensures IsMaxDrawdown(rs, maxDd) && maxDd >= 0.0
  {
    var peak, cum := 0.0, 0.0;
    maxDd := 0.0;
    ghost var top, from, to := 0, 0, 0;
    for k := 0 to |rs|
      invariant cum == Total(rs[..k])
      invariant 0 <= top <= k && peak == Total(rs[..top])
      invariant PeakUpTo(rs, k, top)
      invariant 0 <= from <= to <= k && maxDd == Fall(rs, from, to)
      invariant maxDd >= 0.0 && WorstUpTo(rs, k, maxDd)
    {
      PeakNext(rs, k, top);
      ghost var before := maxDd;
      cum := cum + rs[k];
      if cum > peak {
        peak, top := cum, k + 1;
      } else {
        var dd := peak - cum;
        if dd > maxDd {
          maxDd, from, to := dd, top, k + 1;
        }
      }
      WorstNext(rs, k, top, before, maxDd);
    }
  }

  lemma MaxDrawdownUnique(rs: seq<real>, d: real, e: real)
    requires IsMaxDrawdown(rs, d) && IsMaxDrawdown(rs, e)
    ensures d == e
  {
  }

  // ---------------------------------------------------------------------------
  // The split by side
  // ---------------------------------------------------------------------------

  datatype Side = Long | Short | Neutral

  datatype Outcome = NoFill | EntryInvalidated | Skipped | Tp1First | SlFirst | ConservativeSlFirst | OtherOutcome

  datatype Trade = Trade(side: Side, hasFill: bool, outcome: Outcome, netR: Option<real>)

  predicate Filled(t: Trade) {
    t.hasFill && t.outcome !in {NoFill, EntryInvalidated, Skipped}
  }

  function FilledTrades(ts: seq<Trade>): seq<Trade> {
    if ts == [] then [] else
    var n := |ts| - 1;
    FilledTrades(ts[..n]) + if Filled(ts[n]) then [ts[n]] else []
  }

  function OfSide(ts: seq<Trade>, side: Side): seq<Trade> {
    if ts == [] then [] else
    var n := |ts| - 1;
    OfSide(ts[..n], side) + if ts[n].side == side then [ts[n]] else []
  }

  /** Kept are the trades with a fill that came to an outcome, each as often as it was there. */
  lemma {:induction false} FilledKeeps(ts: seq<Trade>, t: Trade)
    ensures multiset(FilledTrades(ts))[t] ==
      if t.hasFill && t.outcome != NoFill && t.outcome != EntryInvalidated && t.outcome != Skipped
      then multiset(ts)[t] else 0
  {
    if ts != [] {
      var n := |ts| - 1;
      FilledKeeps(ts[..n], t);
      assert ts == ts[..n] + [ts[n]];
    }
  }

  /** A trade without a result counts nothing. */
  function NetR(ts: seq<Trade>): (rs: seq<real>)
    ensures |rs| == |ts|
    ensures forall i :: 0 <= i < |ts| ==> rs[i] == if ts[i].netR.Some? then ts[i].netR.value else 0.0
  {
    seq(|ts|, i requires 0 <= i < |ts| => ts[i].netR.GetOr(0.0))
  }

  method FilterFilled(ts: seq<Trade>) returns (filled: seq<Trade>)
    ensures filled == FilledTrades(ts)
  {
    filled := [];
    for k := 0 to |ts|
      invariant filled == FilledTrades(ts[..k])
    {
      assert ts[..k + 1][..k] == ts[..k];
      if Filled(ts[k]) {
        filled := filled + [ts[k]];
      }
    }
    assert ts[..|ts|] == ts;
  }

  method FilterSide(ts: seq<Trade>, side: Side) returns (picked: seq<Trade>)
    ensures picked == OfSide(ts, side)
  {
    picked := [];
    for k := 0 to |ts|
      invariant picked == OfSide(ts[..k], side)
    {
      assert ts[..k + 1][..k] == ts[..k];
      if ts[k].side == side {
        picked := picked + [ts[k]];
      }
    }
    assert ts[..|ts|] == ts;
  }

  datatype Drawdowns = Drawdowns(combined: real, buy: real, sell: real)

  /** Drawdown of all filled validation trades, of the buys among them and of the sells. */
  method MeasureDrawdowns(validation: seq<Trade>) returns (d: Drawdowns)
    ensures
      var filled := FilledTrades(validation);
      && IsMaxDrawdown(NetR(filled), d.combined)
      && IsMaxDrawdown(NetR(OfSide(filled, Long)), d.buy)
      && IsMaxDrawdown(NetR(OfSide(filled, Short)), d.sell)
    ensures OfSide(FilledTrades(validation), Neutral) == [] ==> d.combined <= d.buy + d.sell
  {
    var filled := FilterFilled(validation);
    var buys := FilterSide(filled, Long);
    var sells := FilterSide(filled, Short);
    var combined := RunningDrawdown(NetR(filled));
    var buy := RunningDrawdown(NetR(buys));
    var sell := RunningDrawdown(NetR(sells));
    d := Drawdowns(combined, buy, sell);
    if OfSide(filled, Neutral) == [] {
      assert Fall(NetR([]), 0, 0) == 0.0 && IsMaxDrawdown(NetR([]), 0.0);
      CombinedAtMostSides(filled, combined, buy, sell, 0.0);
    }
  }

  /** The trades of a prefix that are of one side are a prefix of those of the whole. */
  lemma {:induction false} OfSidePrefix(ts: seq<Trade>, side: Side, j: nat)
    requires j <= |ts|
    ensures
      var c := |OfSide(ts[..j], side)|;
      c <= |OfSide(ts, side)| && OfSide(ts[..j], side) == OfSide(ts, side)[..c]
    decreases |ts| - j
  {
    if j == |ts| {
      assert ts[..j] == ts;
    } else {
      assert ts[..j + 1][..j] == ts[..j];
      OfSidePrefix(ts, side, j + 1);
    }
  }

  lemma OfSideStep(ts: seq<Trade>, side: Side)
    requires ts != []
    ensures
      var n := |ts| - 1;
      OfSide(ts, side) == if ts[n].side == side then OfSide(ts[..n], side) + [ts[n]] else OfSide(ts[..n], side)
  {
  }

  /** The total splits into the totals of the sides. */
  lemma {:induction false} TotalBySide(ts: seq<Trade>)
    ensures Total(NetR(ts))
         == Total(NetR(OfSide(ts, Long))) + Total(NetR(OfSide(ts, Short))) + Total(NetR(OfSide(ts, Neutral)))
  {
    if ts != [] {
      var n := |ts| - 1;
      TotalBySide(ts[..n]);
      NetRAppend(ts[..n], ts[n]);
      assert ts[..n] + [ts[n]] == ts;
      NetRAppend(OfSide(ts[..n], ts[n].side), ts[n]);
      OfSideStep(ts, Long);
      OfSideStep(ts, Short);
      OfSideStep(ts, Neutral);
    } else {
      assert NetR(ts) == [] && NetR(OfSide(ts, Long)) == NetR(ts) && NetR(OfSide(ts, Short)) == NetR(ts);
    }
  }

  lemma NetRAppend(ts: seq<Trade>, t: Trade)
    ensures Total(NetR(ts + [t])) == Total(NetR(ts)) + t.netR.GetOr(0.0)
  {
    assert NetR(ts + [t])[..|ts|] == NetR(ts);
  }

  /** The value of the curve after `j` trades, from the curves of the sides. */
  lemma CurveBySide(ts: seq<Trade>, j: nat)
    requires j <= |ts|
    ensures
      var b, s, n := |OfSide(ts[..j], Long)|, |OfSide(ts[..j], Short)|, |OfSide(ts[..j], Neutral)|;
      && b <= |OfSide(ts, Long)| && s <= |OfSide(ts, Short)| && n <= |OfSide(ts, Neutral)|
      && Total(NetR(ts)[..j]) == Total(NetR(OfSide(ts, Long))[..b]) + Total(NetR(OfSide(ts, Short))[..s])
                               + Total(NetR(OfSide(ts, Neutral))[..n])
  {
    TotalBySide(ts[..j]);
    assert NetR(ts)[..j] == NetR(ts[..j]);
    SidePart(ts, Long, j);
    SidePart(ts, Short, j);
    SidePart(ts, Neutral, j);
  }

  lemma SidePart(ts: seq<Trade>, side: Side, j: nat)
    requires j <= |ts|
    ensures
      var c := |OfSide(ts[..j], side)|;
      c <= |OfSide(ts, side)| && NetR(OfSide(ts[..j], side)) == NetR(OfSide(ts, side))[..c]
  {
    OfSidePrefix(ts, side, j);
  }

  lemma CountGrows(ts: seq<Trade>, side: Side, i: nat, j: nat)
    requires i <= j <= |ts|
    ensures |OfSide(ts[..i], side)| <= |OfSide(ts[..j], side)|
  {
    OfSidePrefix(ts[..j], side, i);
    assert ts[..j][..i] == ts[..i];
  }

  /** However buys, sells and other trades interleave, together they fall no further than the sides' falls added up. */
  lemma CombinedAtMostSides(ts: seq<Trade>, combined: real, buy: real, sell: real, rest: real)
    requires IsMaxDrawdown(NetR(ts), combined)
    requires IsMaxDrawdown(NetR(OfSide(ts, Long)), buy) && IsMaxDrawdown(NetR(OfSide(ts, Short)), sell)
    requires IsMaxDrawdown(NetR(OfSide(ts, Neutral)), rest)
    ensures combined <= buy + sell + rest
  {
    var i: nat, j: nat :| i <= j <= |NetR(ts)| && Fall(NetR(ts), i, j) == combined;
    CurveBySide(ts, i);
    CurveBySide(ts, j);
    CountGrows(ts, Long, i, j);
    CountGrows(ts, Short, i, j);
    CountGrows(ts, Neutral, i, j);
    assert Fall(NetR(OfSide(ts, Long)), |OfSide(ts[..i], Long)|, |OfSide(ts[..j], Long)|) <= buy;
    assert Fall(NetR(OfSide(ts, Short)), |OfSide(ts[..i], Short)|, |OfSide(ts[..j], Short)|) <= sell;
    assert Fall(NetR(OfSide(ts, Neutral)), |OfSide(ts[..i], Neutral)|, |OfSide(ts[..j], Neutral)|) <= rest;
  }

  // ---------------------------------------------------------------------------
  // The bound is reached by some interleaving
  // ---------------------------------------------------------------------------

  lemma {:induction false} OfSideAppend(a: seq<Trade>, b: seq<Trade>, side: Side)
    ensures OfSide(a + b, side) == OfSide(a, side) + OfSide(b, side)
  {
    if b == [] {
      assert a + b == a;
    } else {
      var n := |b| - 1;
      assert (a + b)[..|a + b| - 1] == a + b[..n];
      OfSideAppend(a, b[..n], side);
    }
  }

  ghost predicate AllOf(ts: seq<Trade>, side: Side) {
    forall k :: 0 <= k < |ts| ==> ts[k].side == side
  }

  lemma {:induction false} OfSideUniform(ts: seq<Trade>, side: Side, other: Side)
    requires AllOf(ts, side)
    ensures OfSide(ts, other) == if side == other then ts else []
  {
    if ts != [] {
      OfSideUniform(ts[..|ts| - 1], side, other);
    }
  }

  lemma Mixed(buys: seq<Trade>, sells: seq<Trade>)
    requires AllOf(buys, Long) && AllOf(sells, Short)
    ensures OfSide(buys + sells, Long) == buys && OfSide(buys + sells, Short) == sells
    ensures OfSide(buys + sells, Neutral) == []
  {
    OfSideAppend(buys, sells, Long);
    OfSideAppend(buys, sells, Short);
    OfSideAppend(buys, sells, Neutral);
    OfSideUniform(buys, Long, Long);
    OfSideUniform(buys, Long, Short);
    OfSideUniform(buys, Long, Neutral);
    OfSideUniform(sells, Short, Long);
    OfSideUniform(sells, Short, Short);
    OfSideUniform(sells, Short, Neutral);
  }

  /** `ts` is an interleaving of `buys` and `sells`. */
  ghost predicate Interleaves(ts: seq<Trade>, buys: seq<Trade>, sells: seq<Trade>) {
    OfSide(ts, Long) == buys && OfSide(ts, Short) == sells && OfSide(ts, Neutral) == []
  }

  lemma InterleaveAppend(
    a: seq<Trade>, b: seq<Trade>, buys: seq<Trade>, sells: seq<Trade>, buys': seq<Trade>, sells': seq<Trade>)
    requires Interleaves(a, buys, sells) && Interleaves(b, buys', sells')
    ensures Interleaves(a + b, buys + buys', sells + sells')
  {
    OfSideAppend(a, b, Long);
    OfSideAppend(a, b, Short);
    OfSideAppend(a, b, Neutral);
  }

  lemma InterleavedTotal(ts: seq<Trade>, buys: seq<Trade>, sells: seq<Trade>)
    requires Interleaves(ts, buys, sells)
    ensures Total(NetR(ts)) == Total(NetR(buys)) + Total(NetR(sells))
  {
    TotalBySide(ts);
    assert NetR([]) == [];
  }

  /** Both sides rise to their peaks, then both fall, then the rest follows: the falls add up. */
  lemma FallsAddUp(b: seq<Trade>, b': seq<Trade>, s: seq<Trade>, s': seq<Trade>, rest: seq<Trade>)
    requires AllOf(b, Long) && AllOf(b', Long) && AllOf(s, Short) && AllOf(s', Short)
    ensures
      var ts := ((b + s) + (b' + s')) + rest;
      var i, j := |b + s|, |(b + s) + (b' + s')|;
      Fall(NetR(ts), i, j)
        == Total(NetR(b)) - Total(NetR(b + b')) + (Total(NetR(s)) - Total(NetR(s + s')))
  {
    var ts := ((b + s) + (b' + s')) + rest;
    Mixed(b, s);
    Mixed(b', s');
    InterleaveAppend(b + s, b' + s', b, s, b', s');
    InterleavedTotal(b + s, b, s);
    InterleavedTotal((b + s) + (b' + s'), b + b', s + s');
    PrefixTotals(b + s, b' + s', rest);
  }

  lemma PrefixTotals(x: seq<Trade>, y: seq<Trade>, rest: seq<Trade>)
    ensures Fall(NetR((x + y) + rest), |x|, |x + y|) == Total(NetR(x)) - Total(NetR(x + y))
  {
    var ts := (x + y) + rest;
    PrefixTotal(ts, |x|);
    PrefixTotal(ts, |x + y|);
    assert ts[..|x|] == x && ts[..|x + y|] == x + y;
  }

  lemma PrefixTotal(ts: seq<Trade>, i: nat)
    requires i <= |ts|
    ensures Total(NetR(ts)[..i]) == Total(NetR(ts[..i]))
  {
    assert NetR(ts)[..i] == NetR(ts[..i]);
  }

  /** Both sides rise to their peaks, then both fall, then the rest follows. */
  ghost function WorstInterleaving(buys: seq<Trade>, sells: seq<Trade>, i: nat, j: nat, k: nat, l: nat): seq<Trade>
    requires i <= j <= |buys| && k <= l <= |sells|
  {
    ((buys[..i] + sells[..k]) + (buys[i..j] + sells[k..l])) + (buys[j..] + sells[l..])
  }

  lemma ThreeInterleave(b: seq<Trade>, b': seq<Trade>, b'': seq<Trade>, s: seq<Trade>, s': seq<Trade>, s'': seq<Trade>)
    requires AllOf(b, Long) && AllOf(b', Long) && AllOf(b'', Long)
    requires AllOf(s, Short) && AllOf(s', Short) && AllOf(s'', Short)
    ensures Interleaves(((b + s) + (b' + s')) + (b'' + s''), (b + b') + b'', (s + s') + s'')
  {
    Mixed(b, s);
    Mixed(b', s');
    Mixed(b'', s'');
    InterleaveAppend(b + s, b' + s', b, s, b', s');
    InterleaveAppend((b + s) + (b' + s'), b'' + s'', b + b', s + s', b'', s'');
  }

  lemma WorstInterleaves(buys: seq<Trade>, sells: seq<Trade>, i: nat, j: nat, k: nat, l: nat)
    requires i <= j <= |buys| && k <= l <= |sells| && AllOf(buys, Long) && AllOf(sells, Short)
    ensures Interleaves(WorstInterleaving(buys, sells, i, j, k, l), buys, sells)
  {
    ThreeInterleave(buys[..i], buys[i..j], buys[j..], sells[..k], sells[k..l], sells[l..]);
    assert (buys[..i] + buys[i..j]) + buys[j..] == buys;
    assert (sells[..k] + sells[k..l]) + sells[l..] == sells;
  }

  lemma FallOfSlices(ts: seq<Trade>, i: nat, j: nat)
    requires i <= j <= |ts|
    ensures Fall(NetR(ts), i, j) == Total(NetR(ts[..i])) - Total(NetR(ts[..i] + ts[i..j]))
  {
    PrefixTotal(ts, i);
    PrefixTotal(ts, j);
    assert ts[..i] + ts[i..j] == ts[..j];
  }

  lemma WorstFalls(buys: seq<Trade>, sells: seq<Trade>, i: nat, j: nat, k: nat, l: nat) returns (m: nat, n: nat)
    requires i <= j <= |buys| && k <= l <= |sells| && AllOf(buys, Long) && AllOf(sells, Short)
    ensures m <= n <= |NetR(WorstInterleaving(buys, sells, i, j, k, l))|
    ensures Fall(NetR(WorstInterleaving(buys, sells, i, j, k, l)), m, n)
      == Fall(NetR(buys), i, j) + Fall(NetR(sells), k, l)
  {
    FallsAddUp(buys[..i], buys[i..j], sells[..k], sells[k..l], buys[j..] + sells[l..]);
    m := |buys[..i] + sells[..k]|;
    n := |(buys[..i] + sells[..k]) + (buys[i..j] + sells[k..l])|;
    FallOfSlices(buys, i, j);
    FallOfSlices(sells, k, l);
  }

  /**
   For every list of buys and every list of sells, some interleaving falls by exactly the two
   sides' falls added up.
   */
  lemma SideBoundIsReached(buys: seq<Trade>, sells: seq<Trade>, buy: real, sell: real) returns (ts: seq<Trade>)
    requires AllOf(buys, Long) && AllOf(sells, Short)
    requires IsMaxDrawdown(NetR(buys), buy) && IsMaxDrawdown(NetR(sells), sell)
    ensures Interleaves(ts, buys, sells) && IsMaxDrawdown(NetR(ts), buy + sell)
  {
    var i: nat, j: nat :| i <= j <= |NetR(buys)| && Fall(NetR(buys), i, j) == buy;
    var k: nat, l: nat :| k <= l <= |NetR(sells)| && Fall(NetR(sells), k, l) == sell;
    ts := WorstInterleaving(buys, sells, i, j, k, l);
    WorstInterleaves(buys, sells, i, j, k, l);
    var m, n := WorstFalls(buys, sells, i, j, k, l);
    SideBoundIsExact(ts, buys, sells, buy, sell);
  }

  lemma SideBoundIsExact(ts: seq<Trade>, buys: seq<Trade>, sells: seq<Trade>, buy: real, sell: real)
    requires Interleaves(ts, buys, sells)
    requires IsMaxDrawdown(NetR(buys), buy) && IsMaxDrawdown(NetR(sells), sell)
    requires exists m: nat, n: nat :: m <= n <= |NetR(ts)| && Fall(NetR(ts), m, n) == buy + sell
    ensures IsMaxDrawdown(NetR(ts), buy + sell)
  {
    var combined := SomeDrawdown(NetR(ts));
    assert IsMaxDrawdown(NetR([]), 0.0) by {
      assert Fall(NetR([]), 0, 0) == 0.0;
    }
    CombinedAtMostSides(ts, combined, buy, sell, 0.0);
  }

  /** A largest fall exists. */
  lemma SomeDrawdown(rs: seq<real>) returns (d: real)
    ensures IsMaxDrawdown(rs, d)
  {
    var from, to := 0, 0;
    d := 0.0;
    assert d == Fall(rs, 0, 0);
    for j := 0 to |rs| + 1
      invariant 0 <= from <= to <= |rs| && d == Fall(rs, from, to)
      invariant forall i, m :: 0 <= i <= m < j && m <= |rs| ==> Fall(rs, i, m) <= d
    {
      for i := 0 to j + 1
        invariant 0 <= from <= to <= |rs| && d == Fall(rs, from, to)
        invariant forall a, m :: 0 <= a <= m < j && m <= |rs| ==> Fall(rs, a, m) <= d
        invariant forall a :: 0 <= a < i && a <= j ==> Fall(rs, a, j) <= d
      {
        if Fall(rs, i, j) > d {
          from, to, d := i, j, Fall(rs, i, j);
        }
      }
    }
  }
}
