/** Normalisation of quote-currency prices by the stablecoin rate known at the candle. */
module RateNormalization {
  import opened Wrappers
  import opened UtcTime
  import opened Decimals
  import opened Sorting

  const CRITICAL_STALENESS := 86_400
  const PLACES := 100_000_000.0

  datatype Normalizer = Normalizer(warning: real, critical: real, maxStaleness: int)

  const DEFAULTS := Normalizer(0.005, 0.02, 3600)

  datatype RateEntry = RateEntry(at: Instant, rate: Option<real>)

  datatype Rate = Rate(at: Instant, value: real)

  datatype Peg = Peg(deviation: Option<real>, isWarning: bool, hardFail: bool)

  datatype Check = Check(rate: Option<real>, deviation: Option<real>, isWarning: bool, hardFail: bool,
                         price: Option<real>, isStale: bool, rateAt: Option<Instant>)

  datatype Found = Found(rate: Option<Rate>, isStale: bool, hardFail: bool)

  // ---------------------------------------------------------------------------
  // The latest usable rate
  // ---------------------------------------------------------------------------

  predicate IsUsable(e: RateEntry, t: Instant) {
    e.at <= t && e.rate.Some? && e.rate.value > 0.0
  }

  /** Positive rates observed by `t`, in the order of the history. */
  function Usable(history: seq<RateEntry>, t: Instant): seq<Rate> {
    if history == [] then []
    else
      var n := |history| - 1;
      Usable(history[..n], t)
        + if IsUsable(history[n], t) then [Rate(history[n].at, history[n].rate.value)] else []
  }

  const BY_TIME := (r: Rate) => r.at as real

  function FindRateAsOf(cfg: Normalizer, t: Instant, history: seq<RateEntry>, maxStaleness: Option<int>): Found {
    var limit := if maxStaleness.GetOr(0) == 0 then cfg.maxStaleness else maxStaleness.value;
    var usable := Usable(history, t);
    if usable == [] then Found(None, true, true)
    else
      var sorted := Sort(usable, BY_TIME);
      var latest := sorted[|sorted| - 1];
      var age := t - latest.at;
      if age > CRITICAL_STALENESS * SECOND then Found(Some(latest), true, true)
      else Found(Some(latest), age > limit * SECOND, false)
  }

  /** `k` is the last of the latest rates. */
  ghost predicate IsChosen(rates: seq<Rate>, k: int) {
    && 0 <= k < |rates|
    && (forall i :: 0 <= i < |rates| ==> rates[i].at <= rates[k].at)
    && (forall i :: k < i < |rates| ==> rates[i].at < rates[k].at)
  }

  lemma ChosenNext(rates: seq<Rate>, k: int) returns (k': int)
    requires rates != [] && IsChosen(rates[..|rates| - 1], k)
    ensures IsChosen(rates, k') && k' == if rates[k].at <= rates[|rates| - 1].at then |rates| - 1 else k
  {
    var n := |rates| - 1;
    k' := if rates[k].at <= rates[n].at then n else k;
    assert forall i :: 0 <= i < n ==> rates[..n][i] == rates[i];
  }

  lemma {:induction false} LastOfSorted(rates: seq<Rate>) returns (k: int)
    requires rates != []
    ensures IsChosen(rates, k) && Sort(rates, BY_TIME)[|rates| - 1] == rates[k]
  {
    var n := |rates| - 1;
    if n == 0 {
      k := 0;
      assert Sort(rates[..0], BY_TIME) == [];
    } else {
      k := LastOfSorted(rates[..n]);
      k := ChosenNext(rates, k);
    }
  }

  /** Usable rates are exactly those of the usable entries. */
  lemma {:induction false} UsableMeans(history: seq<RateEntry>, t: Instant, r: Rate)
    ensures r in Usable(history, t) <==>
      exists i :: 0 <= i < |history| && IsUsable(history[i], t) && r == Rate(history[i].at, history[i].rate.value)
  {
    if history != [] {
      var n := |history| - 1;
      UsableMeans(history[..n], t, r);
      assert forall i :: 0 <= i < n ==> history[..n][i] == history[i];
    }
  }

  /**
   A rate is found exactly when one is usable, and the one found is positive, not in the future,
   and the latest such.
   */
  lemma FoundIsLatest(cfg: Normalizer, t: Instant, history: seq<RateEntry>, maxStaleness: Option<int>)
    ensures
      var found := FindRateAsOf(cfg, t, history, maxStaleness);
      && (found.rate.Some? <==> exists i :: 0 <= i < |history| && IsUsable(history[i], t))
      && (found.rate.Some? ==>
            && found.rate.value.at <= t && found.rate.value.value > 0.0
            && (exists i :: 0 <= i < |history| &&
                  history[i] == RateEntry(found.rate.value.at, Some(found.rate.value.value)))
            && forall i :: 0 <= i < |history| && IsUsable(history[i], t) ==> history[i].at <= found.rate.value.at)
  {
    var usable := Usable(history, t);
    if usable == [] {
      forall i | 0 <= i < |history| ensures !IsUsable(history[i], t) {
        if IsUsable(history[i], t) {
          UsableMeans(history, t, Rate(history[i].at, history[i].rate.value));
        }
      }
    } else {
      var k := LastOfSorted(usable);
      UsableMeans(history, t, usable[k]);
      forall i | 0 <= i < |history| && IsUsable(history[i], t) ensures history[i].at <= usable[k].at {
        var r := Rate(history[i].at, history[i].rate.value);
        UsableMeans(history, t, r);
        assert r in usable;
      }
    }
  }

  // ---------------------------------------------------------------------------
  // No lookahead, and the order of the history
  // ---------------------------------------------------------------------------

  function UpTo(history: seq<RateEntry>, t: Instant): seq<RateEntry> {
    if history == [] then []
    else
      var n := |history| - 1;
      UpTo(history[..n], t) + if history[n].at <= t then [history[n]] else []
  }

  lemma {:induction false} UsableUpTo(history: seq<RateEntry>, t: Instant)
    ensures Usable(history, t) == Usable(UpTo(history, t), t)
  {
    if history != [] {
      var n := |history| - 1;
      UsableUpTo(history[..n], t);
      var before := UpTo(history[..n], t);
      if history[n].at <= t {
        assert UpTo(history, t)[..|before|] == before;
      } else {
        assert UpTo(history, t) == before;
      }
    }
  }

  /** Histories that agree up to the candle give the same result, whatever they hold later and wherever they hold it. */
  lemma NoLookahead(
    cfg: Normalizer, raw: real, t: Instant, h: seq<RateEntry>, h': seq<RateEntry>, maxStaleness: Option<int>)
    requires UpTo(h, t) == UpTo(h', t)
    ensures NormalizePricePit(cfg, raw, t, h, maxStaleness) == NormalizePricePit(cfg, raw, t, h', maxStaleness)
  {
    UsableUpTo(h, t);
    UsableUpTo(h', t);
  }

  ghost function UsableSet(history: seq<RateEntry>, t: Instant): set<Rate> {
    set r | r in Usable(history, t)
  }

  /** Rates observed at the latest usable instant agree. */
  ghost predicate LatestAgree(rates: set<Rate>) {
    forall a, b :: a in rates && b in rates && a.at == b.at && (forall r :: r in rates ==> r.at <= a.at) ==> a == b
  }

  function Choice(history: seq<RateEntry>, t: Instant): Option<Rate> {
    FindRateAsOf(DEFAULTS, t, history, None).rate
  }

  ghost predicate ChoiceIgnoresOrder(rates: set<Rate>, t: Instant) {
    forall h, h' :: UsableSet(h, t) == rates && UsableSet(h', t) == rates ==> Choice(h, t) == Choice(h', t)
  }

  /** The choice is a latest usable rate, if any is usable. */
  lemma ChoiceFromSet(h: seq<RateEntry>, t: Instant)
    ensures
      var rates, choice := UsableSet(h, t), Choice(h, t);
      && (choice == None <==> rates == {})
      && (choice.Some? ==> choice.value in rates && forall r :: r in rates ==> r.at <= choice.value.at)
  {
    var u := Usable(h, t);
    if u != [] {
      var k := LastOfSorted(u);
      assert u[k] in UsableSet(h, t);
    }
  }

  lemma AgreeingChoice(h: seq<RateEntry>, h': seq<RateEntry>, t: Instant)
    requires UsableSet(h, t) == UsableSet(h', t) && LatestAgree(UsableSet(h, t))
    ensures Choice(h, t) == Choice(h', t)
  {
    ChoiceFromSet(h, t);
    ChoiceFromSet(h', t);
  }

  lemma {:induction false} ListRates(rates: set<Rate>, t: Instant) returns (history: seq<RateEntry>)
    requires forall r :: r in rates ==> r.at <= t && r.value > 0.0
    ensures UsableSet(history, t) == rates
  {
    if rates == {} {
      history := [];
    } else {
      var r :| r in rates;
      history := ListRates(rates - {r}, t);
      AppendRate(history, r, t);
      history := history + [RateEntry(r.at, Some(r.value))];
    }
  }

  lemma AppendRate(history: seq<RateEntry>, r: Rate, t: Instant)
    requires r.at <= t && r.value > 0.0
    ensures
      var h := history + [RateEntry(r.at, Some(r.value))];
      Usable(h, t) == Usable(history, t) + [r] && UsableSet(h, t) == UsableSet(history, t) + {r}
  {
    var h := history + [RateEntry(r.at, Some(r.value))];
    assert h[..|history|] == history;
  }

  lemma LastTieWins(history: seq<RateEntry>, a: Rate, t: Instant)
    requires a in UsableSet(history, t) && forall r :: r in UsableSet(history, t) ==> r.at <= a.at
    requires a.at <= t && a.value > 0.0
    ensures
      var h := history + [RateEntry(a.at, Some(a.value))];
      UsableSet(h, t) == UsableSet(history, t) && Choice(h, t) == Some(a)
  {
    AppendRate(history, a, t);
    var u := Usable(history, t) + [a];
    assert forall r :: r in Usable(history, t) ==> r in UsableSet(history, t);
    var k := LastOfSorted(u);
    assert u[|u| - 1] == a;
  }

  lemma DisagreeingChoice(rates: set<Rate>, t: Instant, a: Rate, b: Rate)
    requires forall r :: r in rates ==> r.at <= t && r.value > 0.0
    requires a in rates && b in rates && a != b && a.at == b.at && forall r :: r in rates ==> r.at <= a.at
    ensures !ChoiceIgnoresOrder(rates, t)
  {
    var h := ListRates(rates, t);
    LastTieWins(h, a, t);
    LastTieWins(h, b, t);
    var ha, hb := h + [RateEntry(a.at, Some(a.value))], h + [RateEntry(b.at, Some(b.value))];
    assert UsableSet(ha, t) == rates && UsableSet(hb, t) == rates && Choice(ha, t) != Choice(hb, t);
  }

  /**
   The rate chosen is the same for every order and repetition of the history exactly when the
   rates of the latest instant agree.
   */
  lemma ChoiceIgnoresOrderIff(rates: set<Rate>, t: Instant)
    requires forall r :: r in rates ==> r.at <= t && r.value > 0.0
    ensures ChoiceIgnoresOrder(rates, t) <==> LatestAgree(rates)
  {
    if LatestAgree(rates) {
      forall h, h' | UsableSet(h, t) == rates && UsableSet(h', t) == rates ensures Choice(h, t) == Choice(h', t) {
        AgreeingChoice(h, h', t);
      }
    } else {
      var a, b :| a in rates && b in rates && a.at == b.at && (forall r :: r in rates ==> r.at <= a.at) && a != b;
      DisagreeingChoice(rates, t, a, b);
    }
  }

  // ---------------------------------------------------------------------------
  // Normalisation
  // ---------------------------------------------------------------------------

  function EvaluatePeg(cfg: Normalizer, rate: Option<real>): Peg {
    if rate == None || rate.value <= 0.0 then Peg(None, true, true)
    else
      var deviation := Abs(rate.value - 1.0);
      Peg(Some(deviation), deviation >= cfg.warning, deviation >= cfg.critical)
  }

  function InUsd(raw: real, rate: real): real {
    Quantize(raw * rate, PLACES)
  }

  function NormalizePrice(
    cfg: Normalizer, raw: real, rate: Option<real>, rateAt: Option<Instant>, isStale: bool
  ): Check {
    var peg := EvaluatePeg(cfg, rate);
    if rate == None || peg.hardFail then Check(rate, peg.deviation, true, true, None, isStale, rateAt)
    else
      Check(rate, peg.deviation, peg.isWarning || isStale, false, Some(InUsd(raw, rate.value)), isStale, rateAt)
  }

  function NormalizePricePit(
    cfg: Normalizer, raw: real, t: Instant, history: seq<RateEntry>, maxStaleness: Option<int>
  ): Check {
    var found := FindRateAsOf(cfg, t, history, maxStaleness);
    match found.rate
    case None => Check(None, None, true, true, None, found.isStale, None)
    case Some(latest) =>
      var base := NormalizePrice(cfg, raw, Some(latest.value), Some(latest.at), found.isStale);
      base.(hardFail := base.hardFail || found.hardFail, isWarning := base.isWarning || found.isStale)
  }

  /** Some rate of the last 24 hours is usable. */
  ghost predicate HasRecentRate(history: seq<RateEntry>, t: Instant) {
    exists i :: 0 <= i < |history| && IsUsable(history[i], t) && t - history[i].at <= 24 * HOUR
  }

  /** The check passes exactly when some usable rate is recent and the latest one keeps the peg. */
  lemma PitPassesIff(cfg: Normalizer, raw: real, t: Instant, history: seq<RateEntry>, maxStaleness: Option<int>)
    ensures
      var check := NormalizePricePit(cfg, raw, t, history, maxStaleness);
      !check.hardFail <==>
      HasRecentRate(history, t) && check.rate.Some? && Abs(check.rate.value - 1.0) < cfg.critical
  {
    FoundIsLatest(cfg, t, history, maxStaleness);
    var found := FindRateAsOf(cfg, t, history, maxStaleness);
    if found.rate.Some? {
      var i :| 0 <= i < |history| && history[i] == RateEntry(found.rate.value.at, Some(found.rate.value.value));
      assert IsUsable(history[i], t);
    }
  }

  /** Some usable rate is as recent as the caller, or else the configuration, asks, and of the last 24 hours. */
  ghost predicate HasFreshRate(cfg: Normalizer, history: seq<RateEntry>, t: Instant, maxStaleness: Option<int>) {
    exists i :: 0 <= i < |history| && IsUsable(history[i], t) && t - history[i].at <= 24 * HOUR
      && t - history[i].at
         <= (if maxStaleness.Some? && maxStaleness.value != 0 then maxStaleness.value else cfg.maxStaleness) * SECOND
  }

  /**
   A check is stale exactly without such a rate, and warns exactly if it is stale or the latest
   rate is off the peg by either limit.
   */
  lemma StaleAndWarningIff(cfg: Normalizer, raw: real, t: Instant, history: seq<RateEntry>, maxStaleness: Option<int>)
    ensures
      var check := NormalizePricePit(cfg, raw, t, history, maxStaleness);
      && (check.isStale <==> !HasFreshRate(cfg, history, t, maxStaleness))
      && check.deviation == (if check.rate.Some? then Some(Abs(check.rate.value - 1.0)) else None)
      && (check.isWarning <==>
            || check.isStale
            || (check.rate.Some? && (check.deviation.value >= cfg.warning || check.deviation.value >= cfg.critical)))
  {
    FoundIsLatest(cfg, t, history, maxStaleness);
    var found := FindRateAsOf(cfg, t, history, maxStaleness);
    if found.rate.Some? {
      var i :| 0 <= i < |history| && history[i] == RateEntry(found.rate.value.at, Some(found.rate.value.value));
      assert IsUsable(history[i], t);
    }
  }

  lemma Scaled(x: real, d: real, bound: real)
    requires x >= 0.0 && -bound <= d <= bound
    ensures -(bound * x) <= d * x <= bound * x
  {
    assert (bound - d) * x >= 0.0 && (bound + d) * x >= 0.0;
  }

  lemma ScaledDeviation(raw: real, rate: real, bound: real)
    requires Abs(rate - 1.0) < bound
    ensures Abs(raw * rate - raw) <= bound * Abs(raw)
  {
    var d := rate - 1.0;
    assert raw * rate - raw == raw * d;
    Scaled(Abs(raw), d, bound);
    if raw < 0.0 {
      assert d * Abs(raw) == -(raw * d);
    } else {
      assert d * Abs(raw) == raw * d;
    }
  }

  lemma Triangle(p: real, q: real, r: real, near: real, far: real)
    requires Abs(p - q) <= near && Abs(q - r) <= far
    ensures Abs(p - r) <= far + near
  {
  }

  lemma InUsdIsClose(raw: real, rate: real, bound: real)
    requires Abs(rate - 1.0) < bound
    ensures Abs(InUsd(raw, rate) - raw) <= bound * Abs(raw) + 0.5 / PLACES
  {
    var product := raw * rate;
    ScaledDeviation(raw, rate, bound);
    QuantizeClose(product, PLACES);
    Triangle(Quantize(product, PLACES), product, raw, 0.5 / PLACES, bound * Abs(raw));
  }

  lemma PassingRate(cfg: Normalizer, raw: real, rate: Rate, isStale: bool)
    requires !NormalizePrice(cfg, raw, Some(rate.value), Some(rate.at), isStale).hardFail
    ensures rate.value > 0.0 && Abs(rate.value - 1.0) < cfg.critical
    ensures NormalizePrice(cfg, raw, Some(rate.value), Some(rate.at), isStale).price == Some(InUsd(raw, rate.value))
  {
  }

  /** A price that passes is the product with a rate that is positive, keeps the peg and is at most 24 hours old. */
  lemma PassingPrice(cfg: Normalizer, raw: real, t: Instant, history: seq<RateEntry>, maxStaleness: Option<int>)
      returns (rate: Rate)
    requires !NormalizePricePit(cfg, raw, t, history, maxStaleness).hardFail
    ensures
      var check := NormalizePricePit(cfg, raw, t, history, maxStaleness);
      && check.rate == Some(rate.value) && check.rateAt == Some(rate.at) && check.price == Some(InUsd(raw, rate.value))
    ensures rate.value > 0.0 && Abs(rate.value - 1.0) < cfg.critical && 0 <= t - rate.at <= 24 * HOUR
  {
    FoundIsLatest(cfg, t, history, maxStaleness);
    var found := FindRateAsOf(cfg, t, history, maxStaleness);
    rate := found.rate.value;
    PassingRate(cfg, raw, rate, found.isStale);
  }

  /** It is within the critical deviation of the raw price, up to half a unit in the eighth decimal. */
  lemma PassingPriceIsClose(cfg: Normalizer, raw: real, t: Instant, history: seq<RateEntry>, maxStaleness: Option<int>)
    requires !NormalizePricePit(cfg, raw, t, history, maxStaleness).hardFail
    ensures
      var price := NormalizePricePit(cfg, raw, t, history, maxStaleness).price;
      price.Some? && Abs(price.value - raw) <= cfg.critical * Abs(raw) + 0.5 / PLACES
  {
    var rate := PassingPrice(cfg, raw, t, history, maxStaleness);
    InUsdIsClose(raw, rate.value, cfg.critical);
  }

  /**
   A price can be reported although the check fails: exactly when the latest rate keeps the peg
   but is over 24 hours old.
   */
  lemma PriceDespiteFailureIff(
    cfg: Normalizer, raw: real, t: Instant, history: seq<RateEntry>, maxStaleness: Option<int>)
    ensures
      var check := NormalizePricePit(cfg, raw, t, history, maxStaleness);
      check.hardFail && check.price.Some? <==>
      check.rate.Some? && Abs(check.rate.value - 1.0) < cfg.critical && !HasRecentRate(history, t)
  {
    PitPassesIff(cfg, raw, t, history, maxStaleness);
    FoundIsLatest(cfg, t, history, maxStaleness);
  }

  /** One rate of 1.0, observed 25 hours before the candle. */
  lemma PriceDespiteFailureExample()
    ensures
      var check := NormalizePricePit(DEFAULTS, 100.0, 25 * HOUR, [RateEntry(0, Some(1.0))], None);
      check.hardFail && check.price.Some?
  {
    var history := [RateEntry(0, Some(1.0))];
    assert history[..0] == [];
    assert Usable(history, 25 * HOUR) == [Rate(0, 1.0)];
    FoundIsLatest(DEFAULTS, 25 * HOUR, history, None);
  }
}
