/** The key-value store the collector writes and the scanner reads, as an
    in-memory object. Keys are structured instead of the source's
    `m:<id>:<field>` strings, so distinct keys are distinct by construction. */
module MetricsStore {
  import opened Wrappers
  import opened Candles
  import opened ScanTypes

  const BtcUsd: string := "BTC-USD"

  /** The per-product numeric metrics, `m:<id>:<field>`. */
  datatype Field =
    | LastPrice | Change24hPct | Vol24hUsd | LastUpdateMs
    | RollVol5mUsd | RollVol15mUsd | RollVol1hUsd
    | SpreadBps | DepthUsdTop

  datatype Key =
    | Metric(productId: string, field: Field)  // m:<id>:<field>
    | VolumeBaseline                           // market:volume:baseline
    | BuysLast7d                               // scan:buys:last7d
    | NoTradeStreak                            // scan:noTradeStreak

  /** `Number((await redis.get(key)) ?? 0)`. */
  function NumOr0(nums: map<Key, real>, k: Key): real {
    if k in nums then nums[k] else 0.0
  }

  class Store {
    /** Every numeric key. */
    var nums: map<Key, real>
    /** `m:BTC-USD:trendState`. */
    var btcTrend: Option<Regime>
    /** `c:<id>:1d`, the daily candles kept by the candle refresh. */
    var dailyCandles: map<string, seq<RawRow>>
    /** `scan:latest`. */
    var latest: Option<ScanResult>
    /** `scan:history`, newest first. */
    var history: seq<ScanResult>

    constructor ()
      ensures nums == map[] && btcTrend == None && dailyCandles == map[]
      ensures latest == None && history == []
    {
      nums, btcTrend, dailyCandles := map[], None, map[];
      latest, history := None, [];
    }
  }
}
