/** `src/utils/candles.ts`: raw exchange rows become candles sorted by time. */
module Candles {
  import opened Sorting

  /** A raw candle row as the exchange sends it: `[time, low, high, open, close, volume]`.
      JSON decoding, which guarantees the six fields, is outside the model. */
  type RawRow = r: seq<real> | |r| >= 6 witness [0.0, 0.0, 0.0, 0.0, 0.0, 0.0]

  datatype Candle = Candle(time: real, low: real, high: real, open: real, close: real, volume: real)

  /** The destructuring `([time, low, high, open, close, volume]) => ({ ... })`. */
  function FromRow(row: RawRow): Candle {
    Candle(row[0], row[1], row[2], row[3], row[4], row[5])
  }

  function MapRows(raw: seq<RawRow>): (cs: seq<Candle>)
    ensures |cs| == |raw|
    ensures forall i :: 0 <= i < |raw| ==> cs[i] == FromRow(raw[i])
  {
    seq(|raw|, i requires 0 <= i < |raw| => FromRow(raw[i]))
  }

  function Time(c: Candle): real { c.time }

  /** `normalizeCandles`: map every row to a candle, then sort by time (stably). */
  function NormalizeCandles(raw: seq<RawRow>): (cs: seq<Candle>)
    ensures |cs| == |raw|
    ensures SortedBy(cs, Time)
    ensures multiset(cs) == multiset(MapRows(raw))
  {
    SortBy(MapRows(raw), Time)
  }

  /** Every normalised candle takes its six fields, in order, from one input row. */
  lemma NormalizedFieldsArePositional(raw: seq<RawRow>, i: nat)
    requires i < |raw|
    ensures exists j :: 0 <= j < |raw| &&
                        NormalizeCandles(raw)[i] == Candle(raw[j][0], raw[j][1], raw[j][2], raw[j][3], raw[j][4], raw[j][5])
  {
    var c := NormalizeCandles(raw)[i];
    assert c in multiset(NormalizeCandles(raw));
    assert c in MapRows(raw);
    var j :| 0 <= j < |raw| && MapRows(raw)[j] == c;
    assert c == FromRow(raw[j]);
  }

  /** Rows already in time order are only mapped, not reordered. */
  lemma NormalizeOrderedRows(raw: seq<RawRow>)
    requires forall i, j :: 0 <= i < j < |raw| ==> raw[i][0] <= raw[j][0]
    ensures NormalizeCandles(raw) == MapRows(raw)
  {
    SortBySorted(MapRows(raw), Time);
  }
}
