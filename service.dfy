/** `src/scanner/service.ts`: runs a scan and records its verdict in the store. */
module ScanService {
  import opened Wrappers
  import opened Sorting
  import opened ScanTypes
  import opened MetricsStore
  import opened ScannerEngine

  /** `ltrim("scan:history", 0, 199)` keeps 200 entries. */
  const HistoryLimit: nat := 200

  /** Pushing to the front and trimming at every step keeps exactly the newest
      `n` entries of everything pushed. */
  lemma PushTrimKeepsNewest<T>(x: T, s: seq<T>, n: nat)
    requires n > 0
    ensures Take([x] + Take(s, n), n) == Take([x] + s, n)
  {
    var lhs := Take([x] + Take(s, n), n);
    var rhs := Take([x] + s, n);
    assert |lhs| == |rhs|;
    forall i | 0 <= i < |lhs| ensures lhs[i] == rhs[i] {
      if i > 0 {
        assert lhs[i] == Take(s, n)[i - 1];
      }
    }
  }

  /** The number of NO_TRADE verdicts at the newest end of `rs`. */
  function LeadingNoTrades(rs: seq<ScanResult>): (k: nat)
    ensures k <= |rs|
    ensures forall i :: 0 <= i < k ==> rs[i].state == NoTrade
    ensures k < |rs| ==> rs[k].state != NoTrade
  {
    if rs == [] || rs[0].state != NoTrade then 0 else 1 + LeadingNoTrades(rs[1..])
  }

  /** The number of BUY verdicts in `rs`. */
  function CountBuys(rs: seq<ScanResult>): (k: nat)
    ensures k <= |rs|
  {
    if rs == [] then 0 else (if rs[0].state == Buy then 1 else 0) + CountBuys(rs[1..])
  }

  /** The counters after a verdict: BUY adds one to the buys and zeroes the
      streak, NO_TRADE adds one to the streak, SETUP_FORMING zeroes it. */
  function Counted(nums: map<Key, real>, state: ScanState): map<Key, real> {
    match state
    case Buy => nums[BuysLast7d := NumOr0(nums, BuysLast7d) + 1.0][NoTradeStreak := 0.0]
    case NoTrade => nums[NoTradeStreak := NumOr0(nums, NoTradeStreak) + 1.0]
    case SetupForming => nums[NoTradeStreak := 0.0]
  }

  class ScannerService {
    const store: Store
    const engine: ScannerEngine
    /** The verdicts recorded since construction, newest first. */
    ghost var runs: seq<ScanResult>
    /** The counters as found at construction. */
    ghost const streak0: real
    ghost const buys0: real

    /** The streak counts the NO_TRADE verdicts since the last other verdict
        (continuing the stored streak when every verdict so far was NO_TRADE);
        the buy counter counts the BUY verdicts; `scan:latest` is the newest. */
    ghost predicate Valid()
      reads this, store
    {
      && engine.store == store
      && NumOr0(store.nums, NoTradeStreak) ==
           (if LeadingNoTrades(runs) == |runs| then streak0 + |runs| as real else LeadingNoTrades(runs) as real)
      && NumOr0(store.nums, BuysLast7d) == buys0 + CountBuys(runs) as real
      && (runs != [] ==> store.latest == Some(runs[0]))
    }

    constructor (store: Store, env: Env)
      ensures Valid() && this.store == store && engine.env == env && runs == []
    {
      this.store := store;
      this.engine := new ScannerEngine(store, env);
      this.streak0 := NumOr0(store.nums, NoTradeStreak);
      this.buys0 := NumOr0(store.nums, BuysLast7d);
      this.runs := [];
    }

    method Run(productIds: seq<string>, now: real) returns (r: ScanResult)
      requires Valid()
      modifies store, this`runs
      ensures Valid()
      ensures runs == [r] + old(runs)
      ensures r == ScanOf(old(store.nums), old(store.btcTrend), old(store.dailyCandles), productIds, engine.env, now).result
      ensures store.latest == Some(r)
      ensures store.history == Take([r] + old(store.history), HistoryLimit)
      ensures store.btcTrend == old(store.btcTrend) && store.dailyCandles == old(store.dailyCandles)
      ensures store.nums ==
        Counted(ScanOf(old(store.nums), old(store.btcTrend), old(store.dailyCandles), productIds, engine.env, now).nums, r.state)
    {
      ghost var outcome := ScanOf(store.nums, store.btcTrend, store.dailyCandles, productIds, engine.env, now);
      ScanKeepsCounters(store.nums, store.btcTrend, store.dailyCandles, productIds, engine.env, now);
      r := engine.Scan(productIds, now);
      assert r == outcome.result && store.nums == outcome.nums;
      Record(r);
    }

    /** Records a verdict: `scan:latest`, the capped history and the two
        counters, which keep their meaning. */
    method Record(r: ScanResult)
      requires Valid()
      modifies store`latest, store`history, store`nums, this`runs
      ensures Valid()
      ensures runs == [r] + old(runs)
      ensures store.latest == Some(r)
      ensures store.history == Take([r] + old(store.history), HistoryLimit)
      ensures store.nums == Counted(old(store.nums), r.state)
    {
      store.latest := Some(r);
      store.history := Take([r] + store.history, HistoryLimit);
      if r.state == Buy {
        store.nums := store.nums[BuysLast7d := NumOr0(store.nums, BuysLast7d) + 1.0];
        store.nums := store.nums[NoTradeStreak := 0.0];
      } else if r.state == NoTrade {
        store.nums := store.nums[NoTradeStreak := NumOr0(store.nums, NoTradeStreak) + 1.0];
      } else {
        store.nums := store.nums[NoTradeStreak := 0.0];
      }
      runs := [r] + runs;
      assert runs[1..] == old(runs);
    }

    method Latest() returns (r: Option<ScanResult>)
      requires Valid()
      ensures r == store.latest
      ensures runs != [] ==> r == Some(runs[0])
    {
      r := store.latest;
    }
  }
}
