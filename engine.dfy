/** `src/scanner/engine.ts`: the scan pipeline that turns stored metrics into
    a BUY / SETUP_FORMING / NO_TRADE verdict.

    The pipeline is specified by pure functions (`ScanOf` and the functions it
    is built from); the class `ScannerEngine` runs the same steps against the
    store object and is proved to agree with them. */
module ScannerEngine {
  import opened Wrappers
  import opened Sorting
  import opened MathUtils
  import opened Candles
  import opened Levels
  import opened ScanTypes
  import opened MetricsStore

  /** `WINDOWS`, the lookback thresholds walked in ascending order. */
  const Windows: seq<real> := [7.0, 14.0, 21.0, 28.0, 30.0]

  /** The liquidity gate, `LIQ_SPREAD_BPS_MAX` and `LIQ_DEPTH_USD_MIN`. */
  datatype Env = Env(liqSpreadBpsMax: real, liqDepthUsdMin: real)

  /** The configuration defaults: 50 bps and 50000 USD. */
  const DefaultEnv: Env := Env(50.0, 50000.0)

  const RegimeVetoReason: string := "market regime veto"

  // ---------------------------------------------------------------- regime

  /** `classifyRegime`, the engine's own fallback (note: -2, not the collector's -3). */
  function ClassifyRegime(btcChange: real): (r: Regime)
    ensures r == Falling <==> btcChange < -2.0
    ensures r == Trending <==> btcChange > 1.0
    ensures r == Basing <==> -2.0 <= btcChange <= 1.0
  {
    if btcChange < -2.0 then Falling
    else if btcChange > 1.0 then Trending
    else Basing
  }

  /** `btcTrend ?? classifyRegime(btcChange)`. */
  function ResolveRegime(cached: Option<Regime>, btcChange: real): Regime {
    cached.GetOr(ClassifyRegime(btcChange))
  }

  /** The cached label wins; only without one is the 24h change classified. */
  lemma ResolveRegimeCases(cached: Option<Regime>, btcChange: real)
    ensures cached.Some? ==> ResolveRegime(cached, btcChange) == cached.value
    ensures ResolveRegime(None, btcChange) == Falling <==> btcChange < -2.0
    ensures ResolveRegime(None, btcChange) == Trending <==> btcChange > 1.0
    ensures ResolveRegime(None, btcChange) == Basing <==> -2.0 <= btcChange <= 1.0
  {
  }

  // ---------------------------------------------------------------- veto

  /** The hard veto of `checkVeto`: falling regime and BTC down more than 3%. */
  predicate HardVeto(regime: Regime, btcChange: real) {
    regime == Falling && btcChange < -3.0
  }

  /** `m:<id>:<field>` for every id, missing values read as 0. */
  function FieldOf(nums: map<Key, real>, ids: seq<string>, f: Field): (xs: seq<real>)
    ensures |xs| == |ids|
    ensures forall i :: 0 <= i < |ids| ==> xs[i] == NumOr0(nums, Metric(ids[i], f))
  {
    seq(|ids|, i requires 0 <= i < |ids| => NumOr0(nums, Metric(ids[i], f)))
  }

  /** `aggregateVolume`: the summed 24h dollar volume of the tracked products. */
  function AggregateVolume(nums: map<Key, real>, ids: seq<string>): real {
    Sum(FieldOf(nums, ids, Vol24hUsd))
  }

  function Identity(x: real): real { x }

  /** `medianChange` for a non-empty list: sort ascending, take the middle
      element or the mean of the two middle elements. */
  function Median(xs: seq<real>): real
    requires xs != []
  {
    var sorted := SortBy(xs, Identity);
    var mid := |sorted| / 2;
    if |sorted| % 2 == 0 then (sorted[mid - 1] + sorted[mid]) / 2.0 else sorted[mid]
  }

  /** The median lies between the smallest and the largest value. */
  lemma MedianBetweenMinAndMax(xs: seq<real>)
    requires xs != []
    ensures SeqMin(xs) <= Median(xs) <= SeqMax(xs)
  {
    var sorted := SortBy(xs, Identity);
    forall i | 0 <= i < |sorted| ensures SeqMin(xs) <= sorted[i] <= SeqMax(xs) {
      SortByElements(xs, Identity, sorted[i]);
    }
  }

  /** The volume veto: a positive baseline, aggregate volume below 90% of it, and
      a median change that is not negative. With no ids the source's median is
      `NaN` and `NaN >= 0` is false, so the veto cannot fire. */
  predicate VolumeVeto(baseline: real, aggregate: real, changes: seq<real>) {
    baseline > 0.0 && aggregate < baseline * 0.9 && changes != [] && Median(changes) >= 0.0
  }

  datatype VetoOutcome = VetoOutcome(veto: bool, nums: map<Key, real>)

  /** `checkVeto`, which is not free of side effects: outside the hard veto it
      overwrites the stored baseline with the current aggregate volume. */
  function CheckVetoOf(nums: map<Key, real>, regime: Regime, btcChange: real, ids: seq<string>): VetoOutcome {
    if HardVeto(regime, btcChange) then VetoOutcome(true, nums)
    else
      var aggregate := AggregateVolume(nums, ids);
      var baseline := NumOr0(nums, VolumeBaseline);
      var written := nums[VolumeBaseline := aggregate];
      VetoOutcome(VolumeVeto(baseline, aggregate, FieldOf(written, ids, Change24hPct)), written)
  }

  /** The hard veto returns before the baseline is written; otherwise the
      baseline always becomes the aggregate, and the veto is the volume veto
      judged against the previous baseline. */
  lemma CheckVetoCases(nums: map<Key, real>, regime: Regime, btcChange: real, ids: seq<string>)
    ensures HardVeto(regime, btcChange) ==> CheckVetoOf(nums, regime, btcChange, ids) == VetoOutcome(true, nums)
    ensures !HardVeto(regime, btcChange) ==>
      && CheckVetoOf(nums, regime, btcChange, ids).nums == nums[VolumeBaseline := AggregateVolume(nums, ids)]
      && (CheckVetoOf(nums, regime, btcChange, ids).veto <==>
            && NumOr0(nums, VolumeBaseline) > 0.0
            && AggregateVolume(nums, ids) < NumOr0(nums, VolumeBaseline) * 0.9
            && ids != []
            && Median(FieldOf(nums, ids, Change24hPct)) >= 0.0)
  {
    if !HardVeto(regime, btcChange) {
      var written := nums[VolumeBaseline := AggregateVolume(nums, ids)];
      assert FieldOf(written, ids, Change24hPct) == FieldOf(nums, ids, Change24hPct);
    }
  }

  // ---------------------------------------------------------------- metrics

  /** `if (!lastPrice) continue;`: an absent price, or a price of 0 (which the
      store returns as the falsy number 0), skips the product. */
  predicate HasLastPrice(nums: map<Key, real>, id: string) {
    Metric(id, LastPrice) in nums && nums[Metric(id, LastPrice)] != 0.0
  }

  function MetricsOf(nums: map<Key, real>, daily: map<string, seq<RawRow>>, id: string): ProductMetrics {
    ProductMetrics(
      id,
      NumOr0(nums, Metric(id, LastPrice)),
      NumOr0(nums, Metric(id, Change24hPct)),
      NumOr0(nums, Metric(id, Vol24hUsd)),
      NumOr0(nums, Metric(id, RollVol5mUsd)),
      NumOr0(nums, Metric(id, RollVol15mUsd)),
      NumOr0(nums, Metric(id, RollVol1hUsd)),
      NumOr0(nums, Metric(id, SpreadBps)),
      NumOr0(nums, Metric(id, DepthUsdTop)),
      if id in daily then daily[id] else [])
  }

  /** What `loadMetrics` pushes, in id order. */
  function LoadedMetrics(nums: map<Key, real>, daily: map<string, seq<RawRow>>, ids: seq<string>): seq<ProductMetrics> {
    if ids == [] then []
    else
      var id := ids[|ids| - 1];
      LoadedMetrics(nums, daily, ids[..|ids| - 1]) + (if HasLastPrice(nums, id) then [MetricsOf(nums, daily, id)] else [])
  }

  /** Exactly the ids with a recorded price are loaded, each with its own metrics. */
  lemma {:induction false} LoadedMetricsAreThePricedIds(nums: map<Key, real>, daily: map<string, seq<RawRow>>, ids: seq<string>)
    ensures forall m :: m in LoadedMetrics(nums, daily, ids) ==>
      m.productId in ids && HasLastPrice(nums, m.productId) && m == MetricsOf(nums, daily, m.productId)
    ensures forall id :: id in ids && HasLastPrice(nums, id) ==> MetricsOf(nums, daily, id) in LoadedMetrics(nums, daily, ids)
  {
    if ids != [] {
      var init := ids[..|ids| - 1];
      LoadedMetricsAreThePricedIds(nums, daily, init);
      assert ids == init + [ids[|ids| - 1]];
    }
  }

  // ---------------------------------------------------------------- guardrail

  /** `getBuyGuardrail`'s decision: 10 or 5, never their sum. */
  function Guardrail(buyCount: real, noTradeStreak: real): real {
    if buyCount >= 2.0 then 10.0
    else if noTradeStreak >= 3.0 then 5.0
    else 0.0
  }

  lemma GuardrailCases(buyCount: real, noTradeStreak: real)
    ensures Guardrail(buyCount, noTradeStreak) == 10.0 <==> buyCount >= 2.0
    ensures Guardrail(buyCount, noTradeStreak) == 5.0 <==> buyCount < 2.0 && noTradeStreak >= 3.0
    ensures Guardrail(buyCount, noTradeStreak) == 0.0 <==> buyCount < 2.0 && noTradeStreak < 3.0
    ensures Guardrail(buyCount, noTradeStreak) in {0.0, 5.0, 10.0}
  {
  }

  // ---------------------------------------------------------------- scoring

  datatype Candidate = Candidate(
    metrics: ProductMetrics,
    levels: Levels,       // the source recomputes these from the same candles when building the result
    score: real,
    state: ScanState,
    windowDays: real,
    nearSupport: bool,
    nearBreakout: bool,
    lateEntry: bool,
    volumeAccel: bool,
    volumeConfirm: bool)

  predicate LiquidityPass(m: ProductMetrics, env: Env) {
    m.spreadBps > 0.0 && m.spreadBps <= env.liqSpreadBpsMax && m.depthUsdTop >= env.liqDepthUsdMin
  }

  function RegimeScore(regime: Regime): real {
    match regime
    case Trending => 20.0
    case Basing => 10.0
    case Falling => 0.0
  }

  /** `windowDays`: 7 above a 10% move, 14 above 5%, else 21. */
  function WindowDaysFor(change24hPct: real): (w: real)
    ensures w in {7.0, 14.0, 21.0}
  {
    if change24hPct > 10.0 then 7.0 else if change24hPct > 5.0 then 14.0 else 21.0
  }

  /** The larger the 24h move, the shorter the window: each window belongs
      to exactly one band of moves. */
  lemma WindowDaysBands(change24hPct: real)
    ensures WindowDaysFor(change24hPct) == 7.0 <==> change24hPct > 10.0
    ensures WindowDaysFor(change24hPct) == 14.0 <==> 5.0 < change24hPct <= 10.0
    ensures WindowDaysFor(change24hPct) == 21.0 <==> change24hPct <= 5.0
  {
  }

  /** The verdict of one candidate. */
  function VerdictOf(score: real, lateEntry: bool, volumeAccel: bool, volumeConfirm: bool): ScanState {
    if score >= 80.0 && !lateEntry && volumeAccel && volumeConfirm then Buy
    else if score >= 50.0 then SetupForming
    else NoTrade
  }

  /** `volumeSeries.slice(-7)`. */
  function LastN(xs: seq<real>, n: nat): seq<real> {
    if |xs| <= n then xs else xs[|xs| - n..]
  }

  function Volumes(cs: seq<Candle>): seq<real> {
    seq(|cs|, i requires 0 <= i < |cs| => cs[i].volume)
  }

  /** `avgVolume * metrics.lastPrice`: the mean of the last seven daily
      volumes, valued at the last price. */
  function AvgDailyUsd(m: ProductMetrics): real {
    Mean(LastN(Volumes(NormalizeCandles(m.candles1d)), 7)) * m.lastPrice
  }

  /** The unclamped sum of the score components minus the guardrail. */
  function RawScore(regime: Regime, entryQuality: bool, lateEntry: bool, volumeUp: bool,
                    volumeConfirm: bool, guardrail: real): real
  {
    RegimeScore(regime)
    + 15.0                                     // liquidityScore: the gate has passed
    + (if entryQuality then 20.0 else 0.0)
    + (if volumeUp then 15.0 else 0.0)
    + (if volumeConfirm then 25.0 else 0.0)
    + (if entryQuality && !lateEntry then 15.0 else 0.0)
    - guardrail
  }

  /** `scoreProduct`: `None` for a product with fewer than 20 daily candles or
      that fails the liquidity gate. */
  function ScoreProduct(m: ProductMetrics, regime: Regime, guardrail: real, env: Env): (c: Option<Candidate>)
    ensures c.None? <==> |m.candles1d| < 20 || !LiquidityPass(m, env)
    ensures c.Some? ==>
      && c.value.metrics == m
      && 0.0 <= c.value.score <= 100.0
      && c.value.windowDays == WindowDaysFor(m.change24hPct)
      && c.value.levels == FindSupportResistance(NormalizeCandles(m.candles1d))
      && (c.value.nearSupport <==> IsNear(m.lastPrice, c.value.levels.support, 5.0))
      && (c.value.nearBreakout <==> IsNear(m.lastPrice, c.value.levels.resistance, 3.0))
      && (c.value.lateEntry <==> c.value.nearBreakout && m.change24hPct > 12.0)
      && (c.value.volumeAccel <==> m.rollVol5mUsd > m.rollVol15mUsd * 0.4 && m.rollVol15mUsd > m.rollVol1hUsd * 0.2)
      && (c.value.volumeConfirm <==> m.vol24hUsd > AvgDailyUsd(m))
      && c.value.score == Clamp(RawScore(regime, c.value.nearSupport || c.value.nearBreakout, c.value.lateEntry,
                                         m.vol24hUsd > AvgDailyUsd(m) * 0.7, c.value.volumeConfirm, guardrail), 0.0, 100.0)
      && c.value.state == VerdictOf(c.value.score, c.value.lateEntry, c.value.volumeAccel, c.value.volumeConfirm)
    ensures c.Some? && guardrail == guardrail.Floor as real ==> c.value.score == c.value.score.Floor as real
  {
    var candles := NormalizeCandles(m.candles1d);
    if |candles| < 20 then None
    else
      var levels := FindSupportResistance(candles);
      var nearSupport := IsNear(m.lastPrice, levels.support, 5.0);
      var nearBreakout := IsNear(m.lastPrice, levels.resistance, 3.0);
      var avgUsd := AvgDailyUsd(m);
      var volumeConfirm := m.vol24hUsd > avgUsd;
      var volumeUp := m.vol24hUsd > avgUsd * 0.7;
      var volumeAccel := m.rollVol5mUsd > m.rollVol15mUsd * 0.4 && m.rollVol15mUsd > m.rollVol1hUsd * 0.2;
      if !LiquidityPass(m, env) then None
      else
        var entryQuality := nearSupport || nearBreakout;
        var lateEntry := nearBreakout && m.change24hPct > 12.0;
        var raw := RawScore(regime, entryQuality, lateEntry, volumeUp, volumeConfirm, guardrail);
        var score := Clamp(raw, 0.0, 100.0);
        assert guardrail == guardrail.Floor as real ==> score == score.Floor as real by {
          if guardrail == guardrail.Floor as real {
            RawScoreIsWhole(regime, entryQuality, lateEntry, volumeUp, volumeConfirm, guardrail);
            ClampWhole(raw);
          }
        }
        Some(Candidate(m, levels, score, VerdictOf(score, lateEntry, volumeAccel, volumeConfirm),
                       WindowDaysFor(m.change24hPct), nearSupport, nearBreakout, lateEntry, volumeAccel, volumeConfirm))
  }

  /** A larger guardrail never raises the score and lowers it by at most the
      difference; it changes nothing else about the candidate but its verdict. */
  lemma GuardrailLowersScore(m: ProductMetrics, regime: Regime, g1: real, g2: real, env: Env)
    requires g1 <= g2
    ensures ScoreProduct(m, regime, g1, env).Some? <==> ScoreProduct(m, regime, g2, env).Some?
    ensures ScoreProduct(m, regime, g1, env).Some? ==>
      var c1, c2 := ScoreProduct(m, regime, g1, env).value, ScoreProduct(m, regime, g2, env).value;
      && c2.score <= c1.score && c1.score - c2.score <= g2 - g1
      && c2 == c1.(score := c2.score, state := VerdictOf(c2.score, c1.lateEntry, c1.volumeAccel, c1.volumeConfirm))
  {
    if ScoreProduct(m, regime, g1, env).Some? {
      var c1, c2 := ScoreProduct(m, regime, g1, env).value, ScoreProduct(m, regime, g2, env).value;
      var entry := c1.nearSupport || c1.nearBreakout;
      var up := m.vol24hUsd > AvgDailyUsd(m) * 0.7;
      var r1 := RawScore(regime, entry, c1.lateEntry, up, c1.volumeConfirm, g1);
      var r2 := RawScore(regime, entry, c1.lateEntry, up, c1.volumeConfirm, g2);
      assert r2 == r1 - (g2 - g1);
      ClampMonotone(r2, r1, 0.0, 100.0);
    }
  }

  /** The score is at most the regime's points plus the 90 the other
      components can give, less the guardrail (and never below zero). */
  lemma ScoreCeiling(m: ProductMetrics, regime: Regime, guardrail: real, env: Env)
    ensures ScoreProduct(m, regime, guardrail, env).Some? ==>
      ScoreProduct(m, regime, guardrail, env).value.score <= Max(0.0, RegimeScore(regime) + 90.0 - guardrail)
  {
    if ScoreProduct(m, regime, guardrail, env).Some? {
      var c := ScoreProduct(m, regime, guardrail, env).value;
      var raw := RawScore(regime, c.nearSupport || c.nearBreakout, c.lateEntry,
                          m.vol24hUsd > AvgDailyUsd(m) * 0.7, c.volumeConfirm, guardrail);
      assert raw <= RegimeScore(regime) + 90.0 - guardrail;
      ClampMonotone(raw, Max(0.0, RegimeScore(regime) + 90.0 - guardrail), 0.0, 100.0);
    }
  }

  /** A BUY candidate needs a guardrail no larger than the regime's points plus
      ten: a guardrail of 10 rules BUY out in a falling regime. */
  lemma GuardrailBlocksBuy(m: ProductMetrics, regime: Regime, guardrail: real, env: Env)
    ensures ScoreProduct(m, regime, guardrail, env).Some? && ScoreProduct(m, regime, guardrail, env).value.state == Buy ==>
      guardrail <= RegimeScore(regime) + 10.0
  {
    ScoreCeiling(m, regime, guardrail, env);
  }

  /** BUY needs a score of 80, no late entry, accelerating and confirmed volume;
      otherwise 50 gives SETUP_FORMING; below that the candidate is NO_TRADE. */
  lemma VerdictRules(score: real, lateEntry: bool, volumeAccel: bool, volumeConfirm: bool)
    ensures VerdictOf(score, lateEntry, volumeAccel, volumeConfirm) == Buy <==>
      score >= 80.0 && !lateEntry && volumeAccel && volumeConfirm
    ensures VerdictOf(score, lateEntry, volumeAccel, volumeConfirm) == SetupForming <==>
      !(score >= 80.0 && !lateEntry && volumeAccel && volumeConfirm) && score >= 50.0
    ensures VerdictOf(score, lateEntry, volumeAccel, volumeConfirm) == NoTrade <==> score < 50.0
  {
  }

  /** `products.map(scoreProduct).filter((c) => c !== null)`. */
  function Candidates(ms: seq<ProductMetrics>, regime: Regime, guardrail: real, env: Env): (cs: seq<Candidate>)
    ensures forall c :: c in cs ==> c.metrics in ms && ScoreProduct(c.metrics, regime, guardrail, env) == Some(c)
  {
    if ms == [] then []
    else
      var init := Candidates(ms[..|ms| - 1], regime, guardrail, env);
      var last := ms[|ms| - 1];
      assert forall m :: m in ms[..|ms| - 1] ==> m in ms;
      init + (match ScoreProduct(last, regime, guardrail, env) case Some(c) => [c] case None => [])
  }

  /** Every product that scores is kept. */
  lemma {:induction false} CandidatesComplete(ms: seq<ProductMetrics>, regime: Regime, guardrail: real, env: Env, m: ProductMetrics)
    requires m in ms
    ensures ScoreProduct(m, regime, guardrail, env).Some? ==>
      ScoreProduct(m, regime, guardrail, env).value in Candidates(ms, regime, guardrail, env)
  {
    var init := ms[..|ms| - 1];
    assert ms == init + [ms[|ms| - 1]];
    if m != ms[|ms| - 1] {
      CandidatesComplete(init, regime, guardrail, env, m);
    }
  }

  /** There are never more candidates than products. */
  lemma {:induction false} CandidatesAtMostProducts(ms: seq<ProductMetrics>, regime: Regime, guardrail: real, env: Env)
    ensures |Candidates(ms, regime, guardrail, env)| <= |ms|
  {
    if ms != [] {
      CandidatesAtMostProducts(ms[..|ms| - 1], regime, guardrail, env);
    }
  }

  // ---------------------------------------------------------------- ranking

  function NegatedScore(c: Candidate): real { -c.score }

  /** `candidates.sort((a, b) => b.score - a.score).slice(0, 3)`. NO_TRADE
      candidates are not removed. */
  function Ranked(cs: seq<Candidate>): seq<Candidate> {
    var sorted := SortBy(cs, NegatedScore);
    if |sorted| <= 3 then sorted else sorted[..3]
  }

  /** The ranked list holds at most three candidates, by score descending, and
      every candidate left out scores no higher than the third one kept. */
  lemma RankedIsTopThree(cs: seq<Candidate>)
    ensures |Ranked(cs)| == if |cs| < 3 then |cs| else 3
    ensures forall i, j :: 0 <= i < j < |Ranked(cs)| ==> Ranked(cs)[i].score >= Ranked(cs)[j].score
    ensures forall c :: c in Ranked(cs) ==> c in cs
    ensures forall c :: c in cs && c !in Ranked(cs) ==> |Ranked(cs)| == 3 && c.score <= Ranked(cs)[2].score
    ensures multiset(Ranked(cs)) <= multiset(cs)
  {
    var sorted := SortBy(cs, NegatedScore);
    var r := Ranked(cs);
    if |sorted| > 3 {
      assert sorted == r + sorted[3..];
      assert multiset(sorted) == multiset(r) + multiset(sorted[3..]);
    }
    forall i, j | 0 <= i < j < |r| ensures r[i].score >= r[j].score {
      assert r[i] == sorted[i] && r[j] == sorted[j];
      assert NegatedScore(sorted[i]) <= NegatedScore(sorted[j]);
    }
    forall c | c in r ensures c in cs {
      SortByElements(cs, NegatedScore, c);
    }
    forall c | c in cs && c !in r ensures |r| == 3 && c.score <= r[2].score {
      SortByElements(cs, NegatedScore, c);
      var k :| 0 <= k < |sorted| && sorted[k] == c;
      assert k >= 3;
      assert NegatedScore(sorted[2]) <= NegatedScore(sorted[k]);
    }
  }

  /** Candidates with equal scores are ranked in the order they were loaded:
      those of a given score that are kept are the first ones of that score. */
  lemma RankedStable(cs: seq<Candidate>, score: real)
    ensures WithKey(Ranked(cs), NegatedScore, -score) <= WithKey(cs, NegatedScore, -score)
  {
    var sorted := SortBy(cs, NegatedScore);
    SortByStable(cs, NegatedScore, -score);
    if |sorted| > 3 {
      WithKeyOfPrefix(sorted, 3, NegatedScore, -score);
    } else {
      assert Ranked(cs) == sorted;
    }
  }

  // ---------------------------------------------------------------- selection

  /** `ranked.find((c) => c.windowDays <= w && c.state === "BUY")`. */
  function FindBuyWithin(ranked: seq<Candidate>, w: real): Option<Candidate> {
    if ranked == [] then None
    else if ranked[0].windowDays <= w && ranked[0].state == Buy then Some(ranked[0])
    else FindBuyWithin(ranked[1..], w)
  }

  /** The `for (const windowDays of WINDOWS)` loop with its early return. */
  function SelectBuy(ranked: seq<Candidate>, ws: seq<real>): Option<Candidate> {
    if ws == [] then None
    else
      match FindBuyWithin(ranked, ws[0])
      case Some(c) => Some(c)
      case None => SelectBuy(ranked, ws[1..])
  }

  /** `find` returns the first candidate meeting its test, and `None` only when there is none. */
  lemma {:induction false} FindBuyWithinIsFirst(ranked: seq<Candidate>, w: real)
    ensures FindBuyWithin(ranked, w).None? <==>
      forall j :: 0 <= j < |ranked| ==> !(ranked[j].windowDays <= w && ranked[j].state == Buy)
    ensures FindBuyWithin(ranked, w).Some? ==>
      exists k :: 0 <= k < |ranked| && ranked[k] == FindBuyWithin(ranked, w).value
        && ranked[k].windowDays <= w && ranked[k].state == Buy
        && forall j :: 0 <= j < k ==> !(ranked[j].windowDays <= w && ranked[j].state == Buy)
  {
    if ranked != [] && !(ranked[0].windowDays <= w && ranked[0].state == Buy) {
      var tail := ranked[1..];
      FindBuyWithinIsFirst(tail, w);
      if FindBuyWithin(tail, w).Some? {
        var k :| 0 <= k < |tail| && tail[k] == FindBuyWithin(tail, w).value
          && tail[k].windowDays <= w && tail[k].state == Buy
          && forall j :: 0 <= j < k ==> !(tail[j].windowDays <= w && tail[j].state == Buy);
        assert ranked[k + 1] == tail[k];
        forall j | 0 <= j < k + 1 ensures !(ranked[j].windowDays <= w && ranked[j].state == Buy) {
          if j > 0 { assert ranked[j] == tail[j - 1]; }
        }
      } else {
        forall j | 0 <= j < |ranked| ensures !(ranked[j].windowDays <= w && ranked[j].state == Buy) {
          if j > 0 { assert ranked[j] == tail[j - 1]; }
        }
      }
    }
  }

  /** `SelectBuy` over `Windows` tries the five thresholds in turn. */
  lemma SelectBuyUnfolded(ranked: seq<Candidate>)
    ensures SelectBuy(ranked, Windows) ==
      if FindBuyWithin(ranked, 7.0).Some? then FindBuyWithin(ranked, 7.0)
      else if FindBuyWithin(ranked, 14.0).Some? then FindBuyWithin(ranked, 14.0)
      else if FindBuyWithin(ranked, 21.0).Some? then FindBuyWithin(ranked, 21.0)
      else if FindBuyWithin(ranked, 28.0).Some? then FindBuyWithin(ranked, 28.0)
      else FindBuyWithin(ranked, 30.0)
  {
    assert Windows[1..] == [14.0, 21.0, 28.0, 30.0];
    assert [14.0, 21.0, 28.0, 30.0][1..] == [21.0, 28.0, 30.0];
    assert [21.0, 28.0, 30.0][1..] == [28.0, 30.0];
    assert [28.0, 30.0][1..] == [30.0];
    assert [30.0][1..] == [];
    assert SelectBuy(ranked, [30.0]) == FindBuyWithin(ranked, 30.0);
    var s28 := SelectBuy(ranked, [28.0, 30.0]);
    assert s28 == if FindBuyWithin(ranked, 28.0).Some? then FindBuyWithin(ranked, 28.0) else FindBuyWithin(ranked, 30.0);
    var s21 := SelectBuy(ranked, [21.0, 28.0, 30.0]);
    assert s21 == if FindBuyWithin(ranked, 21.0).Some? then FindBuyWithin(ranked, 21.0) else s28;
    var s14 := SelectBuy(ranked, [14.0, 21.0, 28.0, 30.0]);
    assert s14 == if FindBuyWithin(ranked, 14.0).Some? then FindBuyWithin(ranked, 14.0) else s21;
    assert SelectBuy(ranked, Windows) == if FindBuyWithin(ranked, 7.0).Some? then FindBuyWithin(ranked, 7.0) else s14;
  }

  /** If no BUY has a window below `w`, the first BUY within `w` has the
      smallest window and no earlier BUY shares it. */
  lemma FirstWithinIsTightest(ranked: seq<Candidate>, w: real)
    requires forall i :: 0 <= i < |ranked| ==> ranked[i].windowDays in {7.0, 14.0, 21.0}
    requires forall j :: 0 <= j < |ranked| && ranked[j].state == Buy ==> ranked[j].windowDays >= w
    requires FindBuyWithin(ranked, w).Some?
    ensures
      exists k :: 0 <= k < |ranked| && ranked[k] == FindBuyWithin(ranked, w).value && ranked[k].state == Buy
          && (forall j :: 0 <= j < |ranked| && ranked[j].state == Buy ==> ranked[k].windowDays <= ranked[j].windowDays)
          && (forall j :: 0 <= j < k && ranked[j].state == Buy ==> ranked[j].windowDays > ranked[k].windowDays)
  {
    FindBuyWithinIsFirst(ranked, w);
    var k :| 0 <= k < |ranked| && ranked[k] == FindBuyWithin(ranked, w).value
      && ranked[k].windowDays <= w && ranked[k].state == Buy
      && forall j :: 0 <= j < k ==> !(ranked[j].windowDays <= w && ranked[j].state == Buy);
    assert ranked[k].windowDays == w;
  }

  /** Window buckets: a BUY is chosen iff some ranked candidate is a BUY, and the
      one chosen has the smallest window among the BUYs and is the first BUY of
      that window in ranked order. */
  lemma SelectBuyPicksTightestWindow(ranked: seq<Candidate>)
    requires forall i :: 0 <= i < |ranked| ==> ranked[i].windowDays in {7.0, 14.0, 21.0}
    ensures SelectBuy(ranked, Windows).Some? <==> exists i :: 0 <= i < |ranked| && ranked[i].state == Buy
    ensures SelectBuy(ranked, Windows).Some? ==>
      exists k :: 0 <= k < |ranked| && ranked[k] == SelectBuy(ranked, Windows).value && ranked[k].state == Buy
        && (forall j :: 0 <= j < |ranked| && ranked[j].state == Buy ==> ranked[k].windowDays <= ranked[j].windowDays)
        && (forall j :: 0 <= j < k && ranked[j].state == Buy ==> ranked[j].windowDays > ranked[k].windowDays)
  {
    SelectBuyUnfolded(ranked);
    FindBuyWithinIsFirst(ranked, 7.0);
    FindBuyWithinIsFirst(ranked, 14.0);
    FindBuyWithinIsFirst(ranked, 21.0);
    if FindBuyWithin(ranked, 7.0).Some? {
      FirstWithinIsTightest(ranked, 7.0);
    } else if FindBuyWithin(ranked, 14.0).Some? {
      FirstWithinIsTightest(ranked, 14.0);
    } else if FindBuyWithin(ranked, 21.0).Some? {
      FirstWithinIsTightest(ranked, 21.0);
    } else {
      FindBuyWithinIsFirst(ranked, 28.0);
      FindBuyWithinIsFirst(ranked, 30.0);
    }
  }

  // ---------------------------------------------------------------- results

  function VetoResult(now: real): ScanResult {
    ScanResult(NoTrade, None, None, Some([RegimeVetoReason]), NoPlan, now)
  }

  function NoTradeResult(now: real): ScanResult {
    ScanResult(NoTrade, None, None, None, NoPlan, now)
  }

  /** The numbers of `buildBuyResult`. */
  function BuildBuyResult(c: Candidate, now: real): (r: ScanResult)
    ensures r.state == Buy && r.productId == Some(c.metrics.productId) && r.readinessScore == Some(c.score)
    ensures r.plan.BuyPlan? && r.plan.windowDays == c.windowDays && r.plan.price == c.metrics.lastPrice
  {
    var price := c.metrics.lastPrice;
    var support := c.levels.support;
    var zoneLow := if c.nearSupport then support else price;
    var zoneHigh := if c.nearSupport then support * 1.03 else price * 1.02;
    var tight := c.windowDays <= 7.0;
    ScanResult(Buy, Some(c.metrics.productId), Some(c.score), None,
      BuyPlan(price, zoneLow, zoneHigh, price * 1.1, price * 1.2, support * 0.97,
              if tight then 20.0 else 35.0, if tight then 12.0 else 25.0, c.windowDays),
      now)
  }

  /** The BUY plan's levels: buy zone anchored at support when near it, else at
      the price; targets +10% and +20% of the price; stop 3% under support. */
  lemma BuyPlanLevels(c: Candidate, now: real)
    ensures var p := BuildBuyResult(c, now).plan;
      && p.tp1 == 1.1 * c.metrics.lastPrice && p.tp2 == 1.2 * c.metrics.lastPrice
      && p.stop == 0.97 * c.levels.support
      && (c.metrics.lastPrice > 0.0 ==> p.price < p.tp1 < p.tp2)
      && (c.nearSupport ==> p.buyZoneLow == c.levels.support && p.buyZoneHigh == 1.03 * c.levels.support)
      && (!c.nearSupport ==> p.buyZoneLow == c.metrics.lastPrice && p.buyZoneHigh == 1.02 * c.metrics.lastPrice)
      && (p.bestRoiPct, p.realisticRoiPct) == (if c.windowDays <= 7.0 then (20.0, 12.0) else (35.0, 25.0))
  {
  }

  /** The "what's missing" reasons, in their fixed order. */
  function MissingReasons(c: Candidate): seq<Missing> {
    (if !c.volumeConfirm then [VolumeConfirmation] else [])
    + (if !c.nearSupport && !c.nearBreakout then [ClearLevel] else [])
    + (if c.lateEntry then [LateEntry] else [])
  }

  /** `Math.round`: halves round up. */
  function Round(x: real): int {
    (x + 0.5).Floor
  }

  /** The confirm-or-invalidate level: resistance when near a breakout, else 2% over support. */
  function ConfirmLevel(c: Candidate): real {
    if c.nearBreakout then c.levels.resistance else c.levels.support * 1.02
  }

  /** The numbers of `buildSetupResult`. Its `missing.slice(0, 3)` keeps every
      reason, since there are at most three (`MissingReasonsOrder`). */
  function SetupResultOf(c: Candidate, now: real): ScanResult {
    ScanResult(SetupForming, Some(c.metrics.productId), Some(Round(c.score) as real), None,
               SetupPlan(MissingReasons(c), ConfirmLevel(c)), now)
  }

  /** Each reason appears exactly when its condition holds, at most once and
      in the order volume, level, late entry. */
  lemma MissingReasonsOrder(c: Candidate)
    ensures var ms := MissingReasons(c);
      && |ms| <= 3
      && (VolumeConfirmation in ms <==> !c.volumeConfirm)
      && (ClearLevel in ms <==> !c.nearSupport && !c.nearBreakout)
      && (LateEntry in ms <==> c.lateEntry)
      && (forall i, j :: 0 <= i < j < |ms| ==> MissingRank(ms[i]) < MissingRank(ms[j]))
  {
  }

  function MissingRank(m: Missing): nat {
    match m
    case VolumeConfirmation => 0
    case ClearLevel => 1
    case LateEntry => 2
  }

  /** Every score component is a whole number of points. */
  lemma RawScoreIsWhole(regime: Regime, entryQuality: bool, lateEntry: bool, volumeUp: bool,
                        volumeConfirm: bool, guardrail: real)
    requires guardrail == guardrail.Floor as real
    ensures RawScore(regime, entryQuality, lateEntry, volumeUp, volumeConfirm, guardrail)
         == RawScore(regime, entryQuality, lateEntry, volumeUp, volumeConfirm, guardrail).Floor as real
  {
    var points: int := (match regime case Trending => 20 case Basing => 10 case Falling => 0)
      + 15
      + (if entryQuality then 20 else 0)
      + (if volumeUp then 15 else 0)
      + (if volumeConfirm then 25 else 0)
      + (if entryQuality && !lateEntry then 15 else 0)
      - guardrail.Floor;
    assert RawScore(regime, entryQuality, lateEntry, volumeUp, volumeConfirm, guardrail) == points as real;
  }

  /** Clamping a whole number into [0, 100] gives a whole number. */
  lemma ClampWhole(x: real)
    requires x == x.Floor as real
    ensures Clamp(x, 0.0, 100.0) == Clamp(x, 0.0, 100.0).Floor as real
  {
    if x < 0.0 {
      assert Clamp(x, 0.0, 100.0) == 0.0;
    } else if x > 100.0 {
      assert Clamp(x, 0.0, 100.0) == 100.0;
    } else {
      assert Clamp(x, 0.0, 100.0) == x;
    }
  }

  /** Rounding a whole number gives it back, so the SETUP_FORMING readiness
      score equals the candidate's score whenever the guardrail is whole. */
  lemma RoundOfWhole(x: real)
    requires x == x.Floor as real
    ensures Round(x) as real == x
  {
    var k := x.Floor;
    assert k as real <= x + 0.5 < (k + 1) as real;
    assert (x + 0.5).Floor == k;
  }

  // ---------------------------------------------------------------- the scan

  /** The verdict for a ranked list once no veto applies. */
  function Select(ranked: seq<Candidate>, now: real): ScanResult {
    match SelectBuy(ranked, Windows)
    case Some(c) => BuildBuyResult(c, now)
    case None =>
      if |ranked| > 0 && ranked[0].score >= 50.0 then SetupResultOf(ranked[0], now)
      else NoTradeResult(now)
  }

  datatype ScanOutcome = ScanOutcome(result: ScanResult, nums: map<Key, real>)

  /** `scan`: the verdict, and the numeric store contents afterwards. */
  function ScanOf(nums: map<Key, real>, btcTrend: Option<Regime>, daily: map<string, seq<RawRow>>,
                  ids: seq<string>, env: Env, now: real): ScanOutcome
  {
    var btcChange := NumOr0(nums, Metric(BtcUsd, Change24hPct));
    var regime := ResolveRegime(btcTrend, btcChange);
    var v := CheckVetoOf(nums, regime, btcChange, ids);
    if v.veto then ScanOutcome(VetoResult(now), v.nums)
    else ScanOutcome(Select(RankedFor(v.nums, regime, daily, ids, env), now), v.nums)
  }

  /** The top three candidates of a scan, from the metrics as stored. */
  function RankedFor(nums: map<Key, real>, regime: Regime, daily: map<string, seq<RawRow>>,
                     ids: seq<string>, env: Env): seq<Candidate>
  {
    var guardrail := Guardrail(NumOr0(nums, BuysLast7d), NumOr0(nums, NoTradeStreak));
    Ranked(Candidates(LoadedMetrics(nums, daily, ids), regime, guardrail, env))
  }

  /** Every ranked candidate is a tracked product with a price, at least 20
      daily candles and a passing liquidity gate. */
  lemma RankedForQualifies(nums: map<Key, real>, regime: Regime, daily: map<string, seq<RawRow>>,
                           ids: seq<string>, env: Env)
    ensures forall c :: c in RankedFor(nums, regime, daily, ids, env) ==>
      && c.metrics.productId in ids
      && HasLastPrice(nums, c.metrics.productId)
      && c.metrics == MetricsOf(nums, daily, c.metrics.productId)
      && |c.metrics.candles1d| >= 20
      && LiquidityPass(c.metrics, env)
      && c.windowDays in {7.0, 14.0, 21.0}
      && c.state == VerdictOf(c.score, c.lateEntry, c.volumeAccel, c.volumeConfirm)
  {
    var guardrail := Guardrail(NumOr0(nums, BuysLast7d), NumOr0(nums, NoTradeStreak));
    var cs := Candidates(LoadedMetrics(nums, daily, ids), regime, guardrail, env);
    RankedIsTopThree(cs);
    LoadedMetricsAreThePricedIds(nums, daily, ids);
  }

  /** A hard veto answers NO_TRADE with the single reason "market regime veto"
      and leaves the store alone; otherwise the baseline becomes the aggregate
      volume, whatever the verdict. Either veto gives that same answer. */
  lemma ScanVetoAndBaseline(nums: map<Key, real>, btcTrend: Option<Regime>, daily: map<string, seq<RawRow>>,
                            ids: seq<string>, env: Env, now: real)
    ensures var btcChange := NumOr0(nums, Metric(BtcUsd, Change24hPct));
      var o := ScanOf(nums, btcTrend, daily, ids, env, now);
      && (HardVeto(ResolveRegime(btcTrend, btcChange), btcChange) ==>
            o.nums == nums && o.result.state == NoTrade && o.result.reasons == Some([RegimeVetoReason]))
      && (!HardVeto(ResolveRegime(btcTrend, btcChange), btcChange) ==>
            o.nums == nums[VolumeBaseline := AggregateVolume(nums, ids)])
      && (CheckVetoOf(nums, ResolveRegime(btcTrend, btcChange), btcChange, ids).veto ==>
            o.result == VetoResult(now) && o.result.state == NoTrade && o.result.reasons == Some([RegimeVetoReason]))
  {
    var btcChange := NumOr0(nums, Metric(BtcUsd, Change24hPct));
    CheckVetoCases(nums, ResolveRegime(btcTrend, btcChange), btcChange, ids);
  }

  /** A scan leaves the BUY counter and the no-trade streak as they were. */
  lemma ScanKeepsCounters(nums: map<Key, real>, btcTrend: Option<Regime>, daily: map<string, seq<RawRow>>,
                          ids: seq<string>, env: Env, now: real)
    ensures var o := ScanOf(nums, btcTrend, daily, ids, env, now);
      && NumOr0(o.nums, NoTradeStreak) == NumOr0(nums, NoTradeStreak)
      && NumOr0(o.nums, BuysLast7d) == NumOr0(nums, BuysLast7d)
  {
    ScanVetoAndBaseline(nums, btcTrend, daily, ids, env, now);
  }

  /** The verdict for a ranked list is BUY iff one of them is a BUY,
      SETUP_FORMING iff none is and the best scores at least 50, and NO_TRADE
      otherwise; a product named in the verdict is one of the ranked. */
  lemma SelectRules(ranked: seq<Candidate>, now: real)
    requires forall i :: 0 <= i < |ranked| ==> ranked[i].windowDays in {7.0, 14.0, 21.0}
    requires forall i :: 0 <= i < |ranked| ==>
      ranked[i].state == VerdictOf(ranked[i].score, ranked[i].lateEntry, ranked[i].volumeAccel, ranked[i].volumeConfirm)
    ensures Select(ranked, now).state == Buy <==> exists i :: 0 <= i < |ranked| && ranked[i].state == Buy
    ensures Select(ranked, now).state == SetupForming <==>
      (forall i :: 0 <= i < |ranked| ==> ranked[i].state != Buy) && |ranked| > 0 && ranked[0].score >= 50.0
    ensures Select(ranked, now).state == Buy ==>
      Select(ranked, now).readinessScore.Some? && Select(ranked, now).readinessScore.value >= 80.0
    ensures Select(ranked, now).productId.Some? ==>
      exists i :: 0 <= i < |ranked| && Select(ranked, now).productId.value == ranked[i].metrics.productId
  {
    SelectBuyPicksTightestWindow(ranked);
    match SelectBuy(ranked, Windows)
    case Some(c) =>
      var k :| 0 <= k < |ranked| && ranked[k] == c && ranked[k].state == Buy;
      VerdictRules(c.score, c.lateEntry, c.volumeAccel, c.volumeConfirm);
    case None =>
  }

  /** `SelectRules` over a ranking whose every member passed the gates of
      `RankedForQualifies`: a product named in the verdict passed them too. */
  lemma SelectQualified(ranked: seq<Candidate>, now: real, nums: map<Key, real>,
                        daily: map<string, seq<RawRow>>, ids: seq<string>, env: Env)
    requires forall c :: c in ranked ==>
      && c.metrics.productId in ids
      && HasLastPrice(nums, c.metrics.productId)
      && c.metrics == MetricsOf(nums, daily, c.metrics.productId)
      && |c.metrics.candles1d| >= 20
      && LiquidityPass(c.metrics, env)
      && c.windowDays in {7.0, 14.0, 21.0}
      && c.state == VerdictOf(c.score, c.lateEntry, c.volumeAccel, c.volumeConfirm)
    ensures var r := Select(ranked, now);
      && (r.state == Buy <==> exists i :: 0 <= i < |ranked| && ranked[i].state == Buy)
      && (r.state == SetupForming <==>
            (forall i :: 0 <= i < |ranked| ==> ranked[i].state != Buy) && |ranked| > 0 && ranked[0].score >= 50.0)
      && (r.state == Buy ==> r.readinessScore.Some? && r.readinessScore.value >= 80.0)
      && (r.productId.Some? ==>
            && r.productId.value in ids
            && HasLastPrice(nums, r.productId.value)
            && |MetricsOf(nums, daily, r.productId.value).candles1d| >= 20
            && LiquidityPass(MetricsOf(nums, daily, r.productId.value), env))
  {
    forall i | 0 <= i < |ranked|
      ensures ranked[i].windowDays in {7.0, 14.0, 21.0}
      ensures ranked[i].state == VerdictOf(ranked[i].score, ranked[i].lateEntry, ranked[i].volumeAccel, ranked[i].volumeConfirm)
    {
      assert ranked[i] in ranked;
    }
    SelectRules(ranked, now);
    var r := Select(ranked, now);
    if r.productId.Some? {
      var i :| 0 <= i < |ranked| && r.productId.value == ranked[i].metrics.productId;
      assert ranked[i] in ranked;
    }
  }

  /** Without a veto the verdict follows `SelectRules` on the stored metrics'
      top three, and a product named in the verdict passed every gate. */
  lemma ScanVerdictRules(nums: map<Key, real>, btcTrend: Option<Regime>, daily: map<string, seq<RawRow>>,
                         ids: seq<string>, env: Env, now: real)
    requires var btcChange := NumOr0(nums, Metric(BtcUsd, Change24hPct));
      !CheckVetoOf(nums, ResolveRegime(btcTrend, btcChange), btcChange, ids).veto
    ensures var btcChange := NumOr0(nums, Metric(BtcUsd, Change24hPct));
      var regime := ResolveRegime(btcTrend, btcChange);
      var o := ScanOf(nums, btcTrend, daily, ids, env, now);
      var ranked := RankedFor(o.nums, regime, daily, ids, env);
      && (o.result.state == Buy <==> exists i :: 0 <= i < |ranked| && ranked[i].state == Buy)
      && (o.result.state == SetupForming <==>
            (forall i :: 0 <= i < |ranked| ==> ranked[i].state != Buy) && |ranked| > 0 && ranked[0].score >= 50.0)
      && (o.result.state == Buy ==> o.result.readinessScore.Some? && o.result.readinessScore.value >= 80.0)
      && (o.result.productId.Some? ==>
            && o.result.productId.value in ids
            && HasLastPrice(o.nums, o.result.productId.value)
            && |MetricsOf(o.nums, daily, o.result.productId.value).candles1d| >= 20
            && LiquidityPass(MetricsOf(o.nums, daily, o.result.productId.value), env))
  {
    var btcChange := NumOr0(nums, Metric(BtcUsd, Change24hPct));
    var regime := ResolveRegime(btcTrend, btcChange);
    var o := ScanOf(nums, btcTrend, daily, ids, env, now);
    var ranked := RankedFor(o.nums, regime, daily, ids, env);
    assert o.result == Select(ranked, now);
    RankedForQualifies(o.nums, regime, daily, ids, env);
    SelectQualified(ranked, now, o.nums, daily, ids, env);
  }

  /** The scanner engine over the store object. */
  class ScannerEngine {
    const store: Store
    const env: Env

    constructor (store: Store, env: Env)
      ensures this.store == store && this.env == env
    {
      this.store := store;
      this.env := env;
    }

    method Scan(productIds: seq<string>, now: real) returns (r: ScanResult)
      modifies store`nums
      ensures ScanOutcome(r, store.nums) ==
        ScanOf(old(store.nums), store.btcTrend, store.dailyCandles, productIds, env, now)
    {
      var btcChange := NumOr0(store.nums, Metric(BtcUsd, Change24hPct));
      var btcRegime := ResolveRegime(store.btcTrend, btcChange);
      var veto := CheckVeto(btcRegime, btcChange, productIds);
      if veto {
        return VetoResult(now);
      }
      var products := LoadMetrics(productIds);
      var guardrail := GetBuyGuardrail();
      var ranked := Ranked(Candidates(products, btcRegime, guardrail, env));
      assert ranked == RankedFor(store.nums, btcRegime, store.dailyCandles, productIds, env);
      r := Choose(ranked, now);
    }

    /** The selection at the end of `scan`: the first window holding a BUY,
        else a forming setup from the leader, else no trade. */
    method Choose(ranked: seq<Candidate>, now: real) returns (r: ScanResult)
      ensures r == Select(ranked, now)
    {
      for i := 0 to |Windows|
        invariant SelectBuy(ranked, Windows) == SelectBuy(ranked, Windows[i..])
      {
        assert Windows[i..][1..] == Windows[i + 1..];
        var found := FindBuyWithin(ranked, Windows[i]);
        if found.Some? {
          return BuildBuyResult(found.value, now);
        }
      }
      if |ranked| > 0 && ranked[0].score >= 50.0 {
        r := BuildSetupResult(ranked[0], now);
        return;
      }
      r := NoTradeResult(now);
    }

    method CheckVeto(regime: Regime, btcChange: real, productIds: seq<string>) returns (veto: bool)
      modifies store`nums
      ensures VetoOutcome(veto, store.nums) == CheckVetoOf(old(store.nums), regime, btcChange, productIds)
    {
      if regime == Falling && btcChange < -3.0 {
        return true;
      }
      var aggregateVolume := AggregateVolume(store.nums, productIds);
      var baseline := NumOr0(store.nums, VolumeBaseline);
      store.nums := store.nums[VolumeBaseline := aggregateVolume];
      var changes := FieldOf(store.nums, productIds, Change24hPct);
      veto := baseline > 0.0 && aggregateVolume < baseline * 0.9 && changes != [] && Median(changes) >= 0.0;
    }

    method LoadMetrics(productIds: seq<string>) returns (metrics: seq<ProductMetrics>)
      ensures metrics == LoadedMetrics(store.nums, store.dailyCandles, productIds)
    {
      metrics := [];
      for i := 0 to |productIds|
        invariant metrics == LoadedMetrics(store.nums, store.dailyCandles, productIds[..i])
      {
        assert productIds[..i + 1][..i] == productIds[..i];
        var id := productIds[i];
        if !HasLastPrice(store.nums, id) {
          continue;
        }
        metrics := metrics + [MetricsOf(store.nums, store.dailyCandles, id)];
      }
      assert productIds[..|productIds|] == productIds;
    }

    method GetBuyGuardrail() returns (guardrail: real)
      ensures guardrail == Guardrail(NumOr0(store.nums, BuysLast7d), NumOr0(store.nums, NoTradeStreak))
    {
      var buyCount := NumOr0(store.nums, BuysLast7d);
      var noTradeStreak := NumOr0(store.nums, NoTradeStreak);
      if buyCount >= 2.0 {
        return 10.0;
      }
      if noTradeStreak >= 3.0 {
        return 5.0;
      }
      return 0.0;
    }

    method BuildSetupResult(c: Candidate, now: real) returns (r: ScanResult)
      ensures r == SetupResultOf(c, now)
    {
      var missing: seq<Missing> := [];
      if !c.volumeConfirm {
        missing := missing + [VolumeConfirmation];
      }
      if !c.nearSupport && !c.nearBreakout {
        missing := missing + [ClearLevel];
      }
      if c.lateEntry {
        missing := missing + [LateEntry];
      }
      assert missing == MissingReasons(c);
      var confirm := if c.nearBreakout then c.levels.resistance else c.levels.support * 1.02;
      r := ScanResult(SetupForming, Some(c.metrics.productId), Some(Round(c.score) as real), None,
                      SetupPlan(missing, confirm), now);
    }
  }
}
