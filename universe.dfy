/** `src/coinbase/universe.ts`: the set of products the collector tracks,
    chosen by 24h dollar volume with BTC-USD and ETH-USD always first.

    The REST responses are parameters: `products` is the product list and
    `tickers` holds the ticker of every product whose fetch succeeded (a
    product missing from it is one whose fetch threw). */
module Universe {
  import opened Wrappers
  import opened Sorting

  /** `alwaysInclude`. */
  const AlwaysInclude: seq<string> := ["BTC-USD", "ETH-USD"]

  datatype Product = Product(id: string, status: string, tradingDisabled: bool)

  datatype Ticker = Ticker(price: real, volume: real) {
    /** The 24h dollar volume, `price * volume`. */
    function Usd(): real { price * volume }
  }

  /** One entry of the `volumes` record. */
  datatype VolumeEntry = VolumeEntry(id: string, usd: real)

  datatype UniverseSnapshot = UniverseSnapshot(productIds: seq<string>, volumes: seq<VolumeEntry>, lastUpdated: real)

  // ---------------------------------------------------------------- filter

  predicate EndsWithUsd(id: string) {
    |id| >= 4 && id[|id| - 4..] == "-USD"
  }

  /** A USD-quoted product, not disabled, with status "online". */
  predicate IsTradable(p: Product) {
    EndsWithUsd(p.id) && !p.tradingDisabled && p.status == "online"
  }

  /** `products.filter(...)`, in order. */
  function Tradable(products: seq<Product>): (r: seq<Product>)
    ensures forall p :: p in r <==> p in products && IsTradable(p)
  {
    if products == [] then []
    else
      var rest := Tradable(products[1..]);
      assert forall p :: p in products <==> p == products[0] || p in products[1..];
      if IsTradable(products[0]) then [products[0]] + rest else rest
  }

  // ---------------------------------------------------------------- volumes

  /** `volumes[id]` on the record. */
  function VolumeOf(entries: seq<VolumeEntry>, id: string): Option<real> {
    if entries == [] then None
    else if entries[0].id == id then Some(entries[0].usd)
    else VolumeOf(entries[1..], id)
  }

  predicate DistinctIds(entries: seq<VolumeEntry>) {
    forall i, j :: 0 <= i < j < |entries| ==> entries[i].id != entries[j].id
  }

  /** `volumes[id] = usd`: a key already present keeps its place in
      `Object.entries`, a new one goes last. */
  function Upsert(entries: seq<VolumeEntry>, id: string, usd: real): (r: seq<VolumeEntry>)
    ensures forall q :: VolumeOf(r, q) == if q == id then Some(usd) else VolumeOf(entries, q)
    ensures forall e :: e in r ==> e in entries || e == VolumeEntry(id, usd)
    ensures DistinctIds(entries) ==> DistinctIds(r)
  {
    if entries == [] then [VolumeEntry(id, usd)]
    else if entries[0].id == id then [VolumeEntry(id, usd)] + entries[1..]
    else
      var rest := Upsert(entries[1..], id, usd);
      assert forall e :: e in entries[1..] ==> e in entries;
      assert forall j :: 0 <= j < |rest| ==> rest[j] in rest;
      [entries[0]] + rest
  }

  /** The `for (const product of tradable)` loop's record. */
  function Volumes(tradable: seq<Product>, tickers: map<string, Ticker>): seq<VolumeEntry> {
    if tradable == [] then []
    else
      var before := Volumes(tradable[..|tradable| - 1], tickers);
      var id := tradable[|tradable| - 1].id;
      if id in tickers then Upsert(before, id, tickers[id].Usd()) else before
  }

  /** A product has a volume exactly when it is in the list and its ticker was
      fetched, and the volume is price times base volume; the record has no
      repeated key. */
  lemma {:induction false} VolumesAreTickerNotional(tradable: seq<Product>, tickers: map<string, Ticker>, id: string)
    ensures VolumeOf(Volumes(tradable, tickers), id) ==
      if id in tickers && (exists i :: 0 <= i < |tradable| && tradable[i].id == id)
      then Some(tickers[id].Usd()) else None
    ensures DistinctIds(Volumes(tradable, tickers))
  {
    if tradable != [] {
      var init := tradable[..|tradable| - 1];
      VolumesAreTickerNotional(init, tickers, id);
      assert (exists i :: 0 <= i < |tradable| && tradable[i].id == id) <==>
        (exists i :: 0 <= i < |init| && init[i].id == id) || tradable[|tradable| - 1].id == id
      by {
        if exists i :: 0 <= i < |tradable| && tradable[i].id == id {
          var i :| 0 <= i < |tradable| && tradable[i].id == id;
          if i < |init| {
            assert init[i].id == id;
          }
        }
        if exists i :: 0 <= i < |init| && init[i].id == id {
          var i :| 0 <= i < |init| && init[i].id == id;
          assert tradable[i].id == id;
        }
      }
      var before := Volumes(init, tickers);
      var last := tradable[|tradable| - 1].id;
      if last in tickers {
        assert Volumes(tradable, tickers) == Upsert(before, last, tickers[last].Usd());
      } else {
        assert Volumes(tradable, tickers) == before;
      }
    }
  }

  /** An entry of a record without repeated keys is what `volumes[id]` finds. */
  lemma {:induction false} VolumeOfEntry(entries: seq<VolumeEntry>, e: VolumeEntry)
    requires DistinctIds(entries) && e in entries
    ensures VolumeOf(entries, e.id) == Some(e.usd)
  {
    if entries[0] != e {
      assert entries[0].id != e.id by {
        var k :| 0 <= k < |entries| && entries[k] == e;
        assert k > 0;
      }
      assert DistinctIds(entries[1..]);
      VolumeOfEntry(entries[1..], e);
    }
  }

  // ---------------------------------------------------------------- ranking

  function NegatedUsd(e: VolumeEntry): real { -e.usd }

  function Ids(entries: seq<VolumeEntry>): (ids: seq<string>)
    ensures |ids| == |entries|
    ensures forall i :: 0 <= i < |entries| ==> ids[i] == entries[i].id
  {
    seq(|entries|, i requires 0 <= i < |entries| => entries[i].id)
  }

  /** `Object.entries(volumes).sort((a, b) => b[1] - a[1]).map(([id]) => id)`. */
  function SortedIds(entries: seq<VolumeEntry>): seq<string> {
    Ids(SortBy(entries, NegatedUsd))
  }

  /** `filter((id) => !alwaysInclude.includes(id))`, in order. */
  function WithoutAnchors(ids: seq<string>): (r: seq<string>)
    ensures forall x :: x in r <==> x in ids && x !in AlwaysInclude
    ensures |r| <= |ids|
  {
    if ids == [] then []
    else
      var rest := WithoutAnchors(ids[1..]);
      assert forall x :: x in ids <==> x == ids[0] || x in ids[1..];
      if ids[0] !in AlwaysInclude then [ids[0]] + rest else rest
  }

  /** JavaScript's `slice(0, n)`: a negative `n` counts from the end. */
  function Slice<T>(s: seq<T>, n: int): (r: seq<T>)
    ensures |r| <= |s| && r == s[..|r|]
    ensures n >= 0 ==> |r| == if |s| < n then |s| else n
    ensures n < 0 ==> |r| == if |s| + n <= 0 then 0 else |s| + n
  {
    if n >= 0 then Take(s, n)
    else if |s| + n <= 0 then []
    else s[..|s| + n]
  }

  /** `[...alwaysInclude, ...top]`. */
  function UniverseIds(volumes: seq<VolumeEntry>, topN: int): seq<string> {
    AlwaysInclude + Slice(WithoutAnchors(SortedIds(volumes)), topN)
  }

  /** What `refresh` stores. */
  function SnapshotOf(products: seq<Product>, tickers: map<string, Ticker>, topN: int, now: real): UniverseSnapshot {
    var volumes := Volumes(Tradable(products), tickers);
    UniverseSnapshot(UniverseIds(volumes, topN), volumes, now)
  }

  /** The volume an id ranks by. */
  function RankVolume(volumes: seq<VolumeEntry>, id: string): real {
    VolumeOf(volumes, id).GetOr(0.0)
  }

  ghost predicate ByVolumeDesc(ids: seq<string>, volumes: seq<VolumeEntry>) {
    forall i, j :: 0 <= i < j < |ids| ==> RankVolume(volumes, ids[i]) >= RankVolume(volumes, ids[j])
  }

  /** The sorted ids are the record's keys, without repeats, by volume descending. */
  lemma SortedIdsByVolume(volumes: seq<VolumeEntry>)
    requires DistinctIds(volumes)
    ensures ByVolumeDesc(SortedIds(volumes), volumes)
    ensures Distinct(SortedIds(volumes))
    ensures forall x :: x in SortedIds(volumes) <==> VolumeOf(volumes, x).Some?
  {
    var sorted := SortBy(volumes, NegatedUsd);
    var ids := SortedIds(volumes);
    forall i | 0 <= i < |sorted| ensures VolumeOf(volumes, sorted[i].id) == Some(sorted[i].usd) {
      SortByElements(volumes, NegatedUsd, sorted[i]);
      VolumeOfEntry(volumes, sorted[i]);
    }
    forall i, j | 0 <= i < j < |ids| ensures RankVolume(volumes, ids[i]) >= RankVolume(volumes, ids[j]) {
      assert NegatedUsd(sorted[i]) <= NegatedUsd(sorted[j]);
    }
    forall i, j | 0 <= i < j < |ids| ensures ids[i] != ids[j] {
      if ids[i] == ids[j] {
        assert sorted[i].usd == sorted[j].usd;
        assert sorted[i] == sorted[j];
        assert Distinct(volumes) by {
          forall a, b | 0 <= a < b < |volumes| ensures volumes[a] != volumes[b] {
            assert volumes[a].id != volumes[b].id;
          }
        }
        SortByDistinct(volumes, NegatedUsd);
        assert false;
      }
    }
    forall x ensures x in ids <==> VolumeOf(volumes, x).Some? {
      if VolumeOf(volumes, x).Some? {
        var e := VolumeEntry(x, VolumeOf(volumes, x).value);
        VolumeOfFound(volumes, x);
        SortByElements(volumes, NegatedUsd, e);
        var k :| 0 <= k < |sorted| && sorted[k] == e;
        assert ids[k] == x;
      }
    }
  }

  /** What `volumes[id]` finds is an entry of the record. */
  lemma {:induction false} VolumeOfFound(entries: seq<VolumeEntry>, id: string)
    requires VolumeOf(entries, id).Some?
    ensures VolumeEntry(id, VolumeOf(entries, id).value) in entries
  {
    if entries[0].id != id {
      VolumeOfFound(entries[1..], id);
    }
  }

  /** Filtering keeps the order and the absence of repeats. */
  lemma {:induction false} WithoutAnchorsKeepsOrder(ids: seq<string>, volumes: seq<VolumeEntry>)
    requires ByVolumeDesc(ids, volumes) && Distinct(ids)
    ensures ByVolumeDesc(WithoutAnchors(ids), volumes) && Distinct(WithoutAnchors(ids))
  {
    if ids != [] {
      var rest := ids[1..];
      assert ByVolumeDesc(rest, volumes) && Distinct(rest) by {
        forall i, j | 0 <= i < j < |rest| ensures RankVolume(volumes, rest[i]) >= RankVolume(volumes, rest[j]) && rest[i] != rest[j] {
          assert rest[i] == ids[i + 1] && rest[j] == ids[j + 1];
        }
      }
      WithoutAnchorsKeepsOrder(rest, volumes);
      var r := WithoutAnchors(rest);
      if ids[0] !in AlwaysInclude {
        forall j | 0 <= j < |r| ensures RankVolume(volumes, ids[0]) >= RankVolume(volumes, r[j]) && ids[0] != r[j] {
          assert r[j] in rest;
          var k :| 0 <= k < |rest| && rest[k] == r[j];
          assert ids[k + 1] == r[j];
        }
        var out := [ids[0]] + r;
        forall i, j | 0 <= i < j < |out| ensures RankVolume(volumes, out[i]) >= RankVolume(volumes, out[j]) && out[i] != out[j] {
          if i > 0 {
            assert out[i] == r[i - 1] && out[j] == r[j - 1];
          } else {
            assert out[j] == r[j - 1];
          }
        }
      }
    }
  }

  /** The tracked universe: the two anchors first, then at most `topN` other
      products with a volume, highest volume first, with no id twice. */
  lemma UniverseIdsShape(volumes: seq<VolumeEntry>, topN: int)
    requires DistinctIds(volumes)
    ensures var ids := UniverseIds(volumes, topN);
      && ids[..2] == AlwaysInclude
      && (topN >= 0 ==> |ids| <= 2 + topN)
      && Distinct(ids)
      && (forall i :: 2 <= i < |ids| ==> VolumeOf(volumes, ids[i]).Some? && ids[i] !in AlwaysInclude)
      && (forall i, j :: 2 <= i < j < |ids| ==> RankVolume(volumes, ids[i]) >= RankVolume(volumes, ids[j]))
  {
    var sorted := SortedIds(volumes);
    SortedIdsByVolume(volumes);
    WithoutAnchorsKeepsOrder(sorted, volumes);
    var kept := WithoutAnchors(sorted);
    var top := Slice(kept, topN);
    var ids := AlwaysInclude + top;
    forall i | 2 <= i < |ids| ensures ids[i] == kept[i - 2] && kept[i - 2] in kept {
      assert top[i - 2] == kept[i - 2];
    }
    forall i, j | 0 <= i < j < |ids| ensures ids[i] != ids[j] {
      if j >= 2 && i >= 2 {
        assert ids[i] == kept[i - 2] && ids[j] == kept[j - 2];
      }
    }
    forall i, j | 2 <= i < j < |ids| ensures RankVolume(volumes, ids[i]) >= RankVolume(volumes, ids[j]) {
      assert ids[i] == kept[i - 2] && ids[j] == kept[j - 2];
    }
  }

  lemma PrefixMember<T>(p: seq<T>, s: seq<T>, k: nat)
    requires |p| <= |s| && p == s[..|p|] && k < |s|
    ensures k < |p| ==> s[k] in p
  {
    if k < |p| {
      assert p[k] == s[k];
    }
  }

  /** With `topN >= 0`, a product with a volume that is left out means the
      list is full and the product has no more volume than any kept one. */
  lemma UniverseIdsComplete(volumes: seq<VolumeEntry>, topN: int, x: string)
    requires DistinctIds(volumes) && topN >= 0
    requires VolumeOf(volumes, x).Some? && x !in UniverseIds(volumes, topN)
    ensures var ids := UniverseIds(volumes, topN);
      |ids| == 2 + topN && forall i :: 2 <= i < |ids| ==> RankVolume(volumes, x) <= RankVolume(volumes, ids[i])
  {
    var sorted := SortedIds(volumes);
    SortedIdsByVolume(volumes);
    WithoutAnchorsKeepsOrder(sorted, volumes);
    var kept := WithoutAnchors(sorted);
    var top := Slice(kept, topN);
    var ids := AlwaysInclude + top;
    assert x !in AlwaysInclude by {
      assert ids[0] == AlwaysInclude[0] && ids[1] == AlwaysInclude[1];
    }
    assert x in kept;
    var k :| 0 <= k < |kept| && kept[k] == x;
    PrefixMember(top, kept, k);
    forall i | 2 <= i < |ids| ensures RankVolume(volumes, x) <= RankVolume(volumes, ids[i]) {
      assert ids[i] == top[i - 2] == kept[i - 2];
    }
  }

  // ---------------------------------------------------------------- the object

  class ProductUniverse {
    const topN: int
    var snapshot: UniverseSnapshot

    constructor (topN: int)
      ensures this.topN == topN && snapshot == UniverseSnapshot([], [], 0.0)
    {
      this.topN := topN;
      snapshot := UniverseSnapshot([], [], 0.0);
    }

    /** `refresh`: filter, fetch volumes, rank, and replace the snapshot. */
    method Refresh(products: seq<Product>, tickers: map<string, Ticker>, now: real) returns (snap: UniverseSnapshot)
      modifies this`snapshot
      ensures snap == snapshot == SnapshotOf(products, tickers, topN, now)
    {
      var tradable := Tradable(products);
      var volumes: seq<VolumeEntry> := [];
      for i := 0 to |tradable|
        invariant volumes == Volumes(tradable[..i], tickers)
      {
        var prefix := tradable[..i + 1];
        assert prefix[..|prefix| - 1] == tradable[..i];
        var id := tradable[i].id;
        assert prefix[|prefix| - 1].id == id;
        assert Volumes(prefix, tickers) ==
          if id in tickers then Upsert(volumes, id, tickers[id].Usd()) else volumes;
        if id !in tickers {
          continue;
        }
        var ticker := tickers[id];
        volumes := Upsert(volumes, id, ticker.Usd());
      }
      assert tradable[..|tradable|] == tradable;
      var productIds := AlwaysInclude + Slice(WithoutAnchors(SortedIds(volumes)), topN);
      snapshot := UniverseSnapshot(productIds, volumes, now);
      snap := snapshot;
    }

    method GetSnapshot() returns (snap: UniverseSnapshot)
      ensures snap == snapshot
    {
      snap := snapshot;
    }
  }

  /** A refreshed universe leads with the anchors and otherwise tracks only
      tradable products whose ticker was fetched. */
  lemma SnapshotTracksTradables(products: seq<Product>, tickers: map<string, Ticker>, topN: int, now: real)
    ensures var s := SnapshotOf(products, tickers, topN, now);
      && s.productIds[..2] == AlwaysInclude
      && Distinct(s.productIds)
      && forall i :: 2 <= i < |s.productIds| ==>
           s.productIds[i] in tickers && exists p :: p in products && IsTradable(p) && p.id == s.productIds[i]
  {
    var tradable := Tradable(products);
    var volumes := Volumes(tradable, tickers);
    var ids := UniverseIds(volumes, topN);
    VolumesAreTickerNotional(tradable, tickers, "");
    UniverseIdsShape(volumes, topN);
    forall i | 2 <= i < |ids| ensures ids[i] in tickers && exists p :: p in products && IsTradable(p) && p.id == ids[i] {
      VolumesAreTickerNotional(tradable, tickers, ids[i]);
      var k :| 0 <= k < |tradable| && tradable[k].id == ids[i];
      assert tradable[k] in tradable;
    }
  }
}
