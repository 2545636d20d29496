/** `src/collector/index.ts`: turns the WebSocket feed into per-product metrics.

    Ticker messages write price, 24h change and dollar volume; matches feed
    three rolling windows; level-2 messages maintain an order book and write
    the spread and the top-of-book depth. Messages arrive already parsed, as
    `Message` values; the clock is a parameter. */
module Collector {
  import opened Wrappers
  import opened Sorting
  import opened RollingVolume
  import opened ScanTypes
  import opened MetricsStore
  import opened CoinbaseWs
  import ScannerEngine

  /** `DEPTH_LEVELS`: how many price levels per side count towards depth. */
  const DepthLevels: nat := 10

  const FiveMinutesMs: real := 300000.0
  const FifteenMinutesMs: real := 900000.0
  const OneHourMs: real := 3600000.0

  datatype Level = Level(price: real, size: real)
  {
    /** The level's dollar value, `price * size`. */
    function Usd(): real { price * size }
  }

  /** One `[side, price, size]` entry of an `l2update`. */
  datatype Change = Change(side: string, price: real, size: real)

  /** A parsed feed message. An absent `product_id` is the empty string and an
      absent number is 0, as the source's `?? ""` and `?? 0` make them. */
  datatype Message =
    | TickerMsg(productId: string, price: real, open24h: real, volume24h: real)
    | MatchMsg(productId: string, size: real, price: real)
    | SnapshotMsg(productId: string, bids: seq<Level>, asks: seq<Level>)
    | L2UpdateMsg(productId: string, changes: seq<Change>)
    | OtherMsg

  // ---------------------------------------------------------------- ticker

  /** `open24h ? ((price - open24h) / open24h) * 100 : 0`. */
  function Change24hPctOf(price: real, open24h: real): real {
    if open24h != 0.0 then (price - open24h) / open24h * 100.0 else 0.0
  }

  /** The collector's BTC trend label, with a -3% threshold. */
  function TickerTrend(change24hPct: real): (r: Regime)
    ensures r == Falling <==> change24hPct < -3.0
    ensures r == Trending <==> change24hPct > 1.0
  {
    if change24hPct < -3.0 then Falling else if change24hPct > 1.0 then Trending else Basing
  }

  /** The collector labels FALLING below -3% while the engine's own fallback
      does so below -2%: they disagree exactly on [-3, -2). */
  lemma TrendThresholdsDisagree(change24hPct: real)
    ensures TickerTrend(change24hPct) != ScannerEngine.ClassifyRegime(change24hPct) <==>
      -3.0 <= change24hPct < -2.0
    ensures -3.0 <= change24hPct < -2.0 ==>
      TickerTrend(change24hPct) == Basing && ScannerEngine.ClassifyRegime(change24hPct) == Falling
  {
  }

  /** With the collector's label in place, the engine's hard veto fires exactly
      when BTC is down more than 3% over 24 hours. */
  lemma HardVetoUnderTickerTrend(change24hPct: real)
    ensures ScannerEngine.HardVeto(ScannerEngine.ResolveRegime(Some(TickerTrend(change24hPct)), change24hPct), change24hPct)
      <==> change24hPct < -3.0
  {
  }

  /** The four keys a ticker writes. */
  function TickerWrites(nums: map<Key, real>, id: string, price: real, open24h: real, volume24h: real, now: real): map<Key, real> {
    nums[Metric(id, LastPrice) := price]
        [Metric(id, Change24hPct) := Change24hPctOf(price, open24h)]
        [Metric(id, Vol24hUsd) := volume24h * price]
        [Metric(id, LastUpdateMs) := now]
  }

  /** A ticker writes only its own product's four metrics: the price, the
      change against the 24h open (0 for a zero open), the dollar volume and
      the time. Handling the same ticker again later changes only the time. */
  lemma TickerWritesOnlyItsProduct(nums: map<Key, real>, id: string, price: real, open24h: real, volume24h: real,
                                   now: real, later: real)
    ensures var w := TickerWrites(nums, id, price, open24h, volume24h, now);
      && (forall k :: (k in nums && !(k.Metric? && k.productId == id
                         && k.field in {LastPrice, Change24hPct, Vol24hUsd, LastUpdateMs}))
                      ==> k in w && w[k] == nums[k])
      && NumOr0(w, Metric(id, LastPrice)) == price
      && NumOr0(w, Metric(id, Change24hPct)) == (if open24h == 0.0 then 0.0 else (price - open24h) / open24h * 100.0)
      && NumOr0(w, Metric(id, Vol24hUsd)) == volume24h * price
      && NumOr0(w, Metric(id, LastUpdateMs)) == now
      && TickerWrites(w, id, price, open24h, volume24h, later) == w[Metric(id, LastUpdateMs) := later]
  {
    var w := TickerWrites(nums, id, price, open24h, volume24h, now);
    var again := TickerWrites(w, id, price, open24h, volume24h, later);
    var stamped := w[Metric(id, LastUpdateMs) := later];
    assert again.Keys == stamped.Keys;
    forall k | k in again ensures again[k] == stamped[k] {
    }
  }

  // ---------------------------------------------------------------- order book

  /** One side of a book, a `Map<number, number>` from price to size, as its
      entries in insertion order. */
  type Side = seq<Level>

  /** `map.get(price)`. */
  function SizeAt(side: Side, price: real): Option<real> {
    if side == [] then None
    else if side[0].price == price then Some(side[0].size)
    else SizeAt(side[1..], price)
  }

  ghost predicate DistinctPrices(side: Side) {
    forall i, j :: 0 <= i < j < |side| ==> side[i].price != side[j].price
  }

  /** `map.set(price, size)`: an existing entry keeps its place, a new one goes last. */
  function SetLevel(side: Side, price: real, size: real): (r: Side)
    ensures forall q :: SizeAt(r, q) == if q == price then Some(size) else SizeAt(side, q)
    ensures forall l :: l in r ==> l in side || l == Level(price, size)
    ensures DistinctPrices(side) ==> DistinctPrices(r)
  {
    if side == [] then [Level(price, size)]
    else if side[0].price == price then [Level(price, size)] + side[1..]
    else
      var rest := SetLevel(side[1..], price, size);
      assert forall l :: l in side[1..] ==> l in side;
      assert DistinctPrices(side) ==> forall j :: 0 <= j < |rest| ==> rest[j].price != side[0].price by {
        assert forall j :: 0 <= j < |rest| ==> rest[j] in rest;
      }
      [side[0]] + rest
  }

  /** `map.delete(price)`. */
  function DeleteLevel(side: Side, price: real): (r: Side)
    ensures forall q :: SizeAt(r, q) == if q == price then None else SizeAt(side, q)
    ensures forall l :: l in r ==> l in side
    ensures DistinctPrices(side) ==> DistinctPrices(r)
  {
    if side == [] then []
    else
      var rest := DeleteLevel(side[1..], price);
      assert forall l :: l in side[1..] ==> l in side;
      assert forall j :: 0 <= j < |rest| ==> rest[j] in rest;
      if side[0].price == price then rest else [side[0]] + rest
  }

  datatype Book = Book(bids: Side, asks: Side)

  /** The snapshot's `forEach(([price, size]) => map.set(...))` on a side. */
  function LoadLevels(side: Side, levels: seq<Level>): Side {
    if levels == [] then side
    else
      var l := levels[|levels| - 1];
      SetLevel(LoadLevels(side, levels[..|levels| - 1]), l.price, l.size)
  }

  /** The size the last level at `price` carries, if any. */
  function LastSizeAt(levels: seq<Level>, price: real): Option<real> {
    if levels == [] then None
    else if levels[|levels| - 1].price == price then Some(levels[|levels| - 1].size)
    else LastSizeAt(levels[..|levels| - 1], price)
  }

  /** After a snapshot a price carries the size of its last level in the
      snapshot (a size of 0 included); prices it does not list keep what was there. */
  lemma {:induction false} LoadLevelsLastWins(side: Side, levels: seq<Level>, price: real)
    ensures SizeAt(LoadLevels(side, levels), price) ==
      if LastSizeAt(levels, price).Some? then LastSizeAt(levels, price) else SizeAt(side, price)
  {
    if levels != [] {
      LoadLevelsLastWins(side, levels[..|levels| - 1], price);
    }
  }

  /** One `l2update` change: `"buy"` goes to the bids, any other side to the
      asks; size 0 deletes the level. */
  function ApplyChange(book: Book, c: Change): Book {
    var update := (side: Side) => if c.size == 0.0 then DeleteLevel(side, c.price) else SetLevel(side, c.price, c.size);
    if c.side == "buy" then Book(update(book.bids), book.asks) else Book(book.bids, update(book.asks))
  }

  function ApplyChanges(book: Book, cs: seq<Change>): Book {
    if cs == [] then book else ApplyChange(ApplyChanges(book, cs[..|cs| - 1]), cs[|cs| - 1])
  }

  /** The last change of one side (`buy` or not) at `price`, if any. */
  function LastChangeAt(cs: seq<Change>, buy: bool, price: real): Option<Change> {
    if cs == [] then None
    else
      var c := cs[|cs| - 1];
      if (c.side == "buy") == buy && c.price == price then Some(c) else LastChangeAt(cs[..|cs| - 1], buy, price)
  }

  /** The size a change leaves at its price. */
  function SizeAfter(c: Change): Option<real> {
    if c.size == 0.0 then None else Some(c.size)
  }

  /** After an update a price carries what its last change on that side says
      (nothing after a size 0); untouched prices keep their size. */
  lemma {:induction false} ApplyChangesLastWins(book: Book, cs: seq<Change>, price: real)
    ensures SizeAt(ApplyChanges(book, cs).bids, price) ==
      match LastChangeAt(cs, true, price) case Some(c) => SizeAfter(c) case None => SizeAt(book.bids, price)
    ensures SizeAt(ApplyChanges(book, cs).asks, price) ==
      match LastChangeAt(cs, false, price) case Some(c) => SizeAfter(c) case None => SizeAt(book.asks, price)
  {
    if cs != [] {
      ApplyChangesLastWins(book, cs[..|cs| - 1], price);
    }
  }

  /** A side keeps distinct prices through every update ... */
  lemma {:induction false} ChangesKeepDistinctPrices(book: Book, cs: seq<Change>)
    requires DistinctPrices(book.bids) && DistinctPrices(book.asks)
    ensures DistinctPrices(ApplyChanges(book, cs).bids) && DistinctPrices(ApplyChanges(book, cs).asks)
  {
    if cs != [] {
      ChangesKeepDistinctPrices(book, cs[..|cs| - 1]);
    }
  }

  /** ... and through every snapshot. */
  lemma {:induction false} SnapshotHasDistinctPrices(levels: seq<Level>)
    ensures DistinctPrices(LoadLevels([], levels))
  {
    if levels != [] {
      SnapshotHasDistinctPrices(levels[..|levels| - 1]);
    }
  }

  /** The book after a level-2 message: a snapshot replaces both sides; an
      update applies its changes to the book as it is (empty if no snapshot
      came first). */
  function Level2Book(book: Book, msg: Message): Book
    requires msg.SnapshotMsg? || msg.L2UpdateMsg?
  {
    if msg.SnapshotMsg? then Book(LoadLevels([], msg.bids), LoadLevels([], msg.asks))
    else ApplyChanges(book, msg.changes)
  }

  // ---------------------------------------------------------------- top of book

  function Price(l: Level): real { l.price }
  function NegatedPrice(l: Level): real { -l.price }

  /** The `DEPTH_LEVELS` highest bids, highest first. */
  function TopBids(side: Side): Side {
    Take(SortBy(side, NegatedPrice), DepthLevels)
  }

  /** The `DEPTH_LEVELS` lowest asks, lowest first. */
  function TopAsks(side: Side): Side {
    Take(SortBy(side, Price), DepthLevels)
  }

  /** `reduce((sum, [price, size]) => sum + price * size, 0)`. */
  function Notional(levels: seq<Level>): real {
    if levels == [] then 0.0 else Notional(levels[..|levels| - 1]) + levels[|levels| - 1].Usd()
  }

  datatype BookStats = BookStats(spreadBps: real, depthUsdTop: real)

  /** `mid ? ((bestAsk - bestBid) / mid) * 10000 : 0` with `mid` the midpoint. */
  function Spread(bestBid: real, bestAsk: real): real {
    var mid := (bestBid + bestAsk) / 2.0;
    if mid != 0.0 then (bestAsk - bestBid) / mid * 10000.0 else 0.0
  }

  /** The spread and depth the collector publishes, or `None` when either
      side is empty (it then writes nothing). */
  function BookStatsOf(book: Book): (r: Option<BookStats>)
    ensures r.None? <==> book.bids == [] || book.asks == []
  {
    var bids := TopBids(book.bids);
    var asks := TopAsks(book.asks);
    if |bids| == 0 || |asks| == 0 then None
    else
      Some(BookStats(Spread(bids[0].price, asks[0].price), Notional(bids) + Notional(asks)))
  }

  /** The retained bids are the (at most) ten highest, highest first; the
      first is the best bid. */
  lemma TopBidsAreHighest(side: Side)
    ensures var bids := TopBids(side);
      && |bids| == (if |side| < DepthLevels then |side| else DepthLevels)
      && (forall l :: l in bids ==> l in side)
      && (forall i, j :: 0 <= i < j < |bids| ==> bids[i].price >= bids[j].price)
      && (forall l :: l in side && l !in bids ==> |bids| == DepthLevels && l.price <= bids[DepthLevels - 1].price)
      && (bids != [] ==> forall l :: l in side ==> l.price <= bids[0].price)
  {
    var bids := TopBids(side);
    TakeOfSortedIsSmallest(side, NegatedPrice, DepthLevels);
    forall i, j | 0 <= i < j < |bids| ensures bids[i].price >= bids[j].price {
      assert NegatedPrice(bids[i]) <= NegatedPrice(bids[j]);
    }
    if bids != [] {
      forall l | l in side ensures l.price <= bids[0].price {
        if l in bids {
          var k :| 0 <= k < |bids| && bids[k] == l;
          if k > 0 {
            assert NegatedPrice(bids[0]) <= NegatedPrice(bids[k]);
          }
        }
      }
    }
  }

  /** The retained asks are the (at most) ten lowest, lowest first; the
      first is the best ask. */
  lemma TopAsksAreLowest(side: Side)
    ensures var asks := TopAsks(side);
      && |asks| == (if |side| < DepthLevels then |side| else DepthLevels)
      && (forall l :: l in asks ==> l in side)
      && (forall i, j :: 0 <= i < j < |asks| ==> asks[i].price <= asks[j].price)
      && (forall l :: l in side && l !in asks ==> |asks| == DepthLevels && asks[DepthLevels - 1].price <= l.price)
      && (asks != [] ==> forall l :: l in side ==> asks[0].price <= l.price)
  {
    var asks := TopAsks(side);
    TakeOfSortedIsSmallest(side, Price, DepthLevels);
    forall i, j | 0 <= i < j < |asks| ensures asks[i].price <= asks[j].price {
      assert Price(asks[i]) <= Price(asks[j]);
    }
    if asks != [] {
      forall l | l in side ensures asks[0].price <= l.price {
        if l in asks {
          var k :| 0 <= k < |asks| && asks[k] == l;
          if k > 0 {
            assert Price(asks[0]) <= Price(asks[k]);
          }
        }
      }
    }
  }

  /** An uncrossed book with positive prices has a non-negative spread, and
      a strictly positive one when the best ask is above the best bid. */
  lemma SpreadOfUncrossedBook(book: Book)
    requires book.bids != [] && book.asks != []
    requires TopBids(book.bids)[0].price > 0.0
    requires TopAsks(book.asks)[0].price >= TopBids(book.bids)[0].price
    ensures BookStatsOf(book).value.spreadBps >= 0.0
    ensures TopAsks(book.asks)[0].price > TopBids(book.bids)[0].price ==> BookStatsOf(book).value.spreadBps > 0.0
  {
    SpreadSign(TopBids(book.bids)[0].price, TopAsks(book.asks)[0].price);
  }

  /** Helper for `SpreadOfUncrossedBook`: the sign of the spread formula. */
  lemma SpreadSign(bestBid: real, bestAsk: real)
    requires bestBid > 0.0 && bestAsk >= bestBid
    ensures Spread(bestBid, bestAsk) >= 0.0
    ensures bestAsk > bestBid ==> Spread(bestBid, bestAsk) > 0.0
  {
    var mid := (bestBid + bestAsk) / 2.0;
    assert mid > 0.0;
    QuotientSign(bestAsk - bestBid, mid);
  }

  /** Helper for `SpreadSign`, kept apart so that the division is reasoned
      about on its own. */
  lemma QuotientSign(a: real, b: real)
    requires a >= 0.0 && b > 0.0
    ensures a / b * 10000.0 >= 0.0
    ensures a > 0.0 ==> a / b * 10000.0 > 0.0
  {
  }

  /** The two keys a level-2 message writes, when both sides are non-empty. */
  function BookWrites(nums: map<Key, real>, id: string, stats: Option<BookStats>): map<Key, real> {
    match stats
    case None => nums
    case Some(s) => nums[Metric(id, SpreadBps) := s.spreadBps][Metric(id, DepthUsdTop) := s.depthUsdTop]
  }

  // ---------------------------------------------------------------- lazy state

  /** `getBook`: the product's book, a new empty one on first use. */
  function BookOf(books: map<string, Book>, id: string): Book {
    if id in books then books[id] else Book([], [])
  }

  /** `getRolling`: the product's window, a new empty one on first use. */
  function WindowOf(rolls: map<string, Window>, id: string, windowMs: real): Window {
    if id in rolls then rolls[id] else Window(windowMs, [])
  }

  /** `size * price`: a trade's dollar value. */
  function TradeUsd(size: real, price: real): real {
    size * price
  }

  /** A window after one match: the value added, then the window trimmed again
      by `sum` at the same time, which changes nothing further. */
  lemma MatchWindowStep(w: Window, usd: real, ts: real)
    ensures TrimAt(Add(w, usd, ts), ts) == Add(w, usd, ts)
    ensures SumAt(Add(w, usd, ts), ts) == Total(Add(w, usd, ts).buckets)
  {
    TrimmedIdempotent(w.buckets + [Entry(ts, usd)], ts - w.windowMs);
  }

  /** A window created by the collector keeps its horizon. */
  lemma WindowOfHorizon(rolls: map<string, Window>, id: string, windowMs: real)
    requires forall p :: p in rolls ==> rolls[p].windowMs == windowMs
    ensures WindowOf(rolls, id, windowMs).windowMs == windowMs
  {
  }

  // ---------------------------------------------------------------- the collector

  class Collector {
    const store: Store
    const ws: CoinbaseWsClient
    var orderBooks: map<string, Book>
    var roll5m: map<string, Window>
    var roll15m: map<string, Window>
    var roll1h: map<string, Window>
    var trackedProducts: seq<string>
    var wsConnected: bool

    /** The client is consistent, subscribed (while open) to at least the
        tracked products, and every window has its own horizon. */
    ghost predicate Valid()
      reads this, ws
    {
      && ws.Valid() && ws.SubscriptionCovers()
      && ws.productIds == Dedup(trackedProducts)
      && (forall p :: p in roll5m ==> roll5m[p].windowMs == FiveMinutesMs)
      && (forall p :: p in roll15m ==> roll15m[p].windowMs == FifteenMinutesMs)
      && (forall p :: p in roll1h ==> roll1h[p].windowMs == OneHourMs)
    }

    constructor (store: Store)
      ensures Valid() && this.store == store && fresh(ws)
      ensures orderBooks == map[] && roll5m == map[] && roll15m == map[] && roll1h == map[]
      ensures trackedProducts == [] && !wsConnected && ws.socket == None
    {
      this.store := store;
      ws := new CoinbaseWsClient();
      orderBooks := map[];
      roll5m, roll15m, roll1h := map[], map[], map[];
      trackedProducts := [];
      wsConnected := false;
    }

    /** `start`: record the products, hand them to the client and connect. */
    method Start(productIds: seq<string>)
      requires Valid()
      modifies this`trackedProducts, ws
      ensures Valid()
      ensures trackedProducts == productIds && ws.productIds == Dedup(productIds)
      ensures ws.socket == Some(Connecting) && !ws.reconnectPending
    {
      trackedProducts := productIds;
      ws.SetProducts(productIds);
      ws.Connect();
    }

    /** `updateProducts`: record the products and resubscribe if connected.
        Through the client's `setProducts` the new products are added to the
        subscription but the old ones are never removed. */
    method UpdateProducts(productIds: seq<string>)
      requires Valid()
      modifies this`trackedProducts, ws`productIds, ws`sent
      ensures Valid()
      ensures trackedProducts == productIds && ws.productIds == Dedup(productIds)
      ensures old(ws.socket) == Some(Open) ==>
        && ws.sent == old(ws.sent) + [UnsubscribeFrame(ws.productIds), SubscribeFrame(ws.productIds)]
        && Subscribed(ws.sent) == Subscribed(old(ws.sent)) + set x | x in productIds
      ensures old(ws.socket) != Some(Open) ==> ws.sent == old(ws.sent)
    {
      trackedProducts := productIds;
      ws.SetProducts(productIds);
    }

    method IsWsConnected() returns (b: bool)
      ensures b == wsConnected
    {
      b := wsConnected;
    }

    method GetTrackedCount() returns (n: nat)
      ensures n == |trackedProducts|
    {
      n := |trackedProducts|;
    }

    /** The socket opened: the `onOpen` handler marks the feed connected. */
    method OnSocketOpen()
      requires Valid() && ws.socket == Some(Connecting)
      modifies this`wsConnected, ws
      ensures Valid() && wsConnected && ws.socket == Some(Open)
      ensures Subscribed(ws.sent) == set x | x in trackedProducts
    {
      ws.HandleOpen();
      wsConnected := true;
    }

    /** The socket closed: the `onClose` handler marks the feed disconnected
        and the client schedules a reconnect. */
    method OnSocketClose()
      requires Valid() && ws.socket.Some?
      modifies this`wsConnected, ws
      ensures Valid() && !wsConnected && ws.reconnectPending
    {
      wsConnected := false;
      ws.HandleClose();
    }

    /** The socket's error event: a connecting or open socket starts closing;
        the feed stays marked connected until the close event. */
    method OnSocketError()
      requires Valid()
      modifies ws`socket
      ensures Valid()
      ensures ws.socket == if old(ws.socket) == Some(Connecting) || old(ws.socket) == Some(Open) then Some(Closing) else old(ws.socket)
      ensures wsConnected == old(wsConnected)
    {
      ws.HandleError();
    }

    method OnReconnectTimer()
      requires Valid() && ws.reconnectPending
      modifies ws
      ensures Valid() && ws.socket == Some(Connecting)
    {
      ws.FireReconnectTimer();
    }

    /** The effect of a ticker message: nothing for an empty product id;
        otherwise its four metrics, and the BTC trend for BTC-USD. Books and
        windows are untouched. */
    twostate predicate TickerApplied(productId: string, price: real, open24h: real, volume24h: real, now: real)
      reads this, store
    {
      && orderBooks == old(orderBooks) && roll5m == old(roll5m) && roll15m == old(roll15m) && roll1h == old(roll1h)
      && (productId == "" ==> store.nums == old(store.nums) && store.btcTrend == old(store.btcTrend))
      && (productId != "" ==>
            && store.nums == TickerWrites(old(store.nums), productId, price, open24h, volume24h, now)
            && store.btcTrend == if productId == BtcUsd then Some(TickerTrend(Change24hPctOf(price, open24h))) else old(store.btcTrend))
    }

    /** The effect of a match message: nothing for an empty product id;
        otherwise the trade's value added to the product's three windows and
        their sums published. Books and the trend are untouched. */
    twostate predicate MatchApplied(productId: string, size: real, price: real, now: real)
      reads this, store
    {
      && orderBooks == old(orderBooks) && store.btcTrend == old(store.btcTrend)
      && (productId == "" ==>
            roll5m == old(roll5m) && roll15m == old(roll15m) && roll1h == old(roll1h) && store.nums == old(store.nums))
      && (productId != "" ==>
            && roll5m == old(roll5m)[productId := Add(WindowOf(old(roll5m), productId, FiveMinutesMs), TradeUsd(size, price), now)]
            && roll15m == old(roll15m)[productId := Add(WindowOf(old(roll15m), productId, FifteenMinutesMs), TradeUsd(size, price), now)]
            && roll1h == old(roll1h)[productId := Add(WindowOf(old(roll1h), productId, OneHourMs), TradeUsd(size, price), now)]
            && store.nums == old(store.nums)
                 [Metric(productId, RollVol5mUsd) := Total(roll5m[productId].buckets)]
                 [Metric(productId, RollVol15mUsd) := Total(roll15m[productId].buckets)]
                 [Metric(productId, RollVol1hUsd) := Total(roll1h[productId].buckets)])
    }

    /** The effect of a snapshot or an update: nothing for an empty product
        id; otherwise the product's book rebuilt or updated, and its spread
        and depth published when both sides are non-empty. Windows and the
        trend are untouched. */
    twostate predicate Level2Applied(msg: Message)
      requires msg.SnapshotMsg? || msg.L2UpdateMsg?
      reads this, store
    {
      && roll5m == old(roll5m) && roll15m == old(roll15m) && roll1h == old(roll1h) && store.btcTrend == old(store.btcTrend)
      && (msg.productId == "" ==> orderBooks == old(orderBooks) && store.nums == old(store.nums))
      && (msg.productId != "" ==>
            && orderBooks == old(orderBooks)[msg.productId := Level2Book(BookOf(old(orderBooks), msg.productId), msg)]
            && store.nums == BookWrites(old(store.nums), msg.productId, BookStatsOf(orderBooks[msg.productId])))
    }

    /** `handleMessage`: dispatch on the message type; any other type changes nothing. */
    method HandleMessage(msg: Message, now: real)
      requires Valid()
      modifies this`orderBooks, this`roll5m, this`roll15m, this`roll1h, store`nums, store`btcTrend
      ensures Valid()
      ensures msg.TickerMsg? ==> TickerApplied(msg.productId, msg.price, msg.open24h, msg.volume24h, now)
      ensures msg.MatchMsg? ==> MatchApplied(msg.productId, msg.size, msg.price, now)
      ensures msg.SnapshotMsg? || msg.L2UpdateMsg? ==> Level2Applied(msg)
      ensures msg.OtherMsg? ==>
        && orderBooks == old(orderBooks) && roll5m == old(roll5m) && roll15m == old(roll15m) && roll1h == old(roll1h)
        && store.nums == old(store.nums) && store.btcTrend == old(store.btcTrend)
    {
      match msg
      case TickerMsg(id, price, open24h, volume24h) =>
        HandleTicker(id, price, open24h, volume24h, now);
      case MatchMsg(id, size, price) =>
        HandleMatch(id, size, price, now);
      case SnapshotMsg(_, _, _) =>
        HandleLevel2(msg);
      case L2UpdateMsg(_, _) =>
        HandleLevel2(msg);
      case OtherMsg =>
    }

    /** `handleTicker`: the change against the 24h open and, for BTC-USD,
        the collector's own trend label. */
    method HandleTicker(productId: string, price: real, open24h: real, volume24h: real, now: real)
      modifies store`nums, store`btcTrend
      ensures TickerApplied(productId, price, open24h, volume24h, now)
    {
      if productId == "" {
        return;
      }
      var change24hPct := if open24h != 0.0 then (price - open24h) / open24h * 100.0 else 0.0;
      store.nums := store.nums[Metric(productId, LastPrice) := price];
      store.nums := store.nums[Metric(productId, Change24hPct) := change24hPct];
      store.nums := store.nums[Metric(productId, Vol24hUsd) := volume24h * price];
      store.nums := store.nums[Metric(productId, LastUpdateMs) := now];
      if productId == BtcUsd {
        var trendState := if change24hPct < -3.0 then Falling else if change24hPct > 1.0 then Trending else Basing;
        store.btcTrend := Some(trendState);
      }
    }

    /** `handleMatch`: the trade's dollar value goes into all three windows
        and each window's sum is published. */
    method HandleMatch(productId: string, size: real, price: real, now: real)
      requires Valid()
      modifies this`roll5m, this`roll15m, this`roll1h, store`nums
      ensures Valid()
      ensures MatchApplied(productId, size, price, now)
    {
      if productId == "" {
        return;
      }
      var usd := TradeUsd(size, price);
      var sum5, sum15, sum1h;
      roll5m, sum5 := AddAndSum(roll5m, productId, FiveMinutesMs, usd, now);
      roll15m, sum15 := AddAndSum(roll15m, productId, FifteenMinutesMs, usd, now);
      roll1h, sum1h := AddAndSum(roll1h, productId, OneHourMs, usd, now);
      store.nums := store.nums[Metric(productId, RollVol5mUsd) := sum5];
      store.nums := store.nums[Metric(productId, RollVol15mUsd) := sum15];
      store.nums := store.nums[Metric(productId, RollVol1hUsd) := sum1h];
    }

    /** `getRolling(...).add(usd, ts)` on one window map, then that window's
        `sum(ts)`, which trims it again. */
    static method AddAndSum(rolls: map<string, Window>, productId: string, windowMs: real, usd: real, now: real)
      returns (updated: map<string, Window>, sum: real)
      ensures updated == rolls[productId := Add(WindowOf(rolls, productId, windowMs), usd, now)]
      ensures sum == Total(updated[productId].buckets)
      ensures (forall p :: p in rolls ==> rolls[p].windowMs == windowMs) ==>
        forall p :: p in updated ==> updated[p].windowMs == windowMs
    {
      var w := Add(WindowOf(rolls, productId, windowMs), usd, now);
      MatchWindowStep(WindowOf(rolls, productId, windowMs), usd, now);
      updated := rolls[productId := TrimAt(w, now)];
      sum := SumAt(w, now);
    }

    /** `handleLevel2`: update the product's book, then publish its spread and
        depth when both sides are non-empty. */
    method HandleLevel2(msg: Message)
      requires msg.SnapshotMsg? || msg.L2UpdateMsg?
      modifies this`orderBooks, store`nums
      ensures Level2Applied(msg)
    {
      var productId := msg.productId;
      if productId == "" {
        return;
      }
      var book := BookOf(orderBooks, productId);
      if msg.SnapshotMsg? {
        var bids := LoadSide(msg.bids);
        var asks := LoadSide(msg.asks);
        book := Book(bids, asks);
      } else {
        book := ApplyUpdate(book, msg.changes);
      }
      orderBooks := orderBooks[productId := book];
      PublishTopOfBook(productId, book);
    }

    /** The snapshot's `forEach` on a cleared side. */
    static method LoadSide(levels: seq<Level>) returns (side: Side)
      ensures side == LoadLevels([], levels)
    {
      side := [];
      for i := 0 to |levels|
        invariant side == LoadLevels([], levels[..i])
      {
        assert levels[..i + 1][..i] == levels[..i];
        side := SetLevel(side, levels[i].price, levels[i].size);
      }
      assert levels[..|levels|] == levels;
    }

    /** The update's `forEach` over its changes. */
    static method ApplyUpdate(start: Book, changes: seq<Change>) returns (book: Book)
      ensures book == ApplyChanges(start, changes)
    {
      book := start;
      for i := 0 to |changes|
        invariant book == ApplyChanges(start, changes[..i])
      {
        assert changes[..i + 1][..i] == changes[..i];
        var c := changes[i];
        if c.side == "buy" {
          var bids := if c.size == 0.0 then DeleteLevel(book.bids, c.price) else SetLevel(book.bids, c.price, c.size);
          book := book.(bids := bids);
        } else {
          var asks := if c.size == 0.0 then DeleteLevel(book.asks, c.price) else SetLevel(book.asks, c.price, c.size);
          book := book.(asks := asks);
        }
      }
      assert changes[..|changes|] == changes;
    }

    /** The top-of-book computation and its two writes. */
    method PublishTopOfBook(productId: string, book: Book)
      modifies store`nums
      ensures store.nums == BookWrites(old(store.nums), productId, BookStatsOf(book))
    {
      var stats := TopOfBook(book);
      if stats.None? {
        return;
      }
      store.nums := store.nums[Metric(productId, SpreadBps) := stats.value.spreadBps];
      store.nums := store.nums[Metric(productId, DepthUsdTop) := stats.value.depthUsdTop];
    }

    /** The ten best levels of each side, then the spread between the best
        bid and ask and the dollar depth of those levels. */
    static method TopOfBook(book: Book) returns (stats: Option<BookStats>)
      ensures stats == BookStatsOf(book)
    {
      var bidsSorted := TopBids(book.bids);
      var asksSorted := TopAsks(book.asks);
      if |bidsSorted| == 0 || |asksSorted| == 0 {
        return None;
      }
      var bestBid := bidsSorted[0].price;
      var bestAsk := asksSorted[0].price;
      var spreadBps := Spread(bestBid, bestAsk);
      var depthUsdTop := Notional(bidsSorted) + Notional(asksSorted);
      stats := Some(BookStats(spreadBps, depthUsdTop));
    }
  }
}
