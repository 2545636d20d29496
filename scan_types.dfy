/** `src/scanner/types.ts`: the regime, the verdict and the per-product metrics. */
module ScanTypes {
  import opened Wrappers
  import opened Candles

  datatype Regime = Falling | Basing | Trending

  datatype ScanState = Buy | SetupForming | NoTrade

  /** One of the "what's missing" lines of a SETUP_FORMING verdict. */
  datatype Missing = VolumeConfirmation | ClearLevel | LateEntry

  /** The numbers a verdict reports; the rendered text around them is not modelled. */
  datatype Plan =
    | BuyPlan(price: real, buyZoneLow: real, buyZoneHigh: real, tp1: real, tp2: real,
              stop: real, bestRoiPct: real, realisticRoiPct: real, windowDays: real)
    | SetupPlan(missing: seq<Missing>, confirmLevel: real)
    | NoPlan

  datatype ScanResult = ScanResult(
    state: ScanState,
    productId: Option<string>,
    readinessScore: Option<real>,
    reasons: Option<seq<string>>,
    plan: Plan,
    timestamp: real)

  /** The metrics of one product as read back from the store. The hourly
      candles, which the engine loads but never uses, are not modelled. */
  datatype ProductMetrics = ProductMetrics(
    productId: string,
    lastPrice: real,
    change24hPct: real,
    vol24hUsd: real,
    rollVol5mUsd: real,
    rollVol15mUsd: real,
    rollVol1hUsd: real,
    spreadBps: real,
    depthUsdTop: real,
    candles1d: seq<RawRow>)
}
