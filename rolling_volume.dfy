/** `src/collector/rollingVolume.ts`: a queue of (timestamp, value) entries
    that evicts from the front every entry older than a horizon. */
module RollingVolume {

  datatype Entry = Entry(ts: real, value: real)

  /** The queue with every front entry older than `cutoff` removed
      (the `while (buckets[0].ts < cutoff) shift()` loop). */
  function Trimmed(bs: seq<Entry>, cutoff: real): seq<Entry>
    decreases |bs|
  {
    if |bs| > 0 && bs[0].ts < cutoff then Trimmed(bs[1..], cutoff) else bs
  }

  /** The sum of the values, `buckets.reduce((acc, cur) => acc + cur.value, 0)`. */
  function Total(bs: seq<Entry>): real {
    if bs == [] then 0.0 else Total(bs[..|bs| - 1]) + bs[|bs| - 1].value
  }

  /** Timestamps are non-decreasing from front to back. */
  ghost predicate Ordered(bs: seq<Entry>) {
    forall i, j :: 0 <= i < j < |bs| ==> bs[i].ts <= bs[j].ts
  }

  /** The value-level view of one `RollingVolume` object: its horizon and its queue. */
  datatype Window = Window(windowMs: real, buckets: seq<Entry>)

  /** `add(value, ts)`: append, then trim at `ts`. */
  function Add(w: Window, value: real, ts: real): Window {
    Window(w.windowMs, Trimmed(w.buckets + [Entry(ts, value)], ts - w.windowMs))
  }

  /** The queue after `sum(ts)` has trimmed it. */
  function TrimAt(w: Window, ts: real): Window {
    Window(w.windowMs, Trimmed(w.buckets, ts - w.windowMs))
  }

  /** The number `sum(ts)` returns. */
  function SumAt(w: Window, ts: real): real {
    Total(TrimAt(w, ts).buckets)
  }

  /** The mutable object itself. */
  class RollingVolume {
    const windowMs: real
    var buckets: seq<Entry>

    ghost function Model(): Window
      reads this
    {
      Window(windowMs, buckets)
    }

    constructor (windowMs: real)
      ensures Model() == Window(windowMs, [])
    {
      this.windowMs := windowMs;
      buckets := [];
    }

    method AddValue(value: real, ts: real)
      modifies this
      ensures Model() == Add(old(Model()), value, ts)
    {
      buckets := buckets + [Entry(ts, value)];
      Trim(ts);
    }

    method Sum(ts: real) returns (total: real)
      modifies this
      ensures Model() == TrimAt(old(Model()), ts)
      ensures total == Total(buckets)
    {
      Trim(ts);
      total := 0.0;
      for i := 0 to |buckets|
        invariant total == Total(buckets[..i])
      {
        assert buckets[..i + 1][..i] == buckets[..i];
        total := total + buckets[i].value;
      }
      assert buckets[..|buckets|] == buckets;
    }

    method Trim(now: real)
      modifies this
      ensures buckets == Trimmed(old(buckets), now - windowMs)
    {
      var cutoff := now - windowMs;
      while |buckets| > 0 && buckets[0].ts < cutoff
        invariant Trimmed(buckets, cutoff) == Trimmed(old(buckets), cutoff)
        decreases |buckets|
      {
        buckets := buckets[1..];
      }
    }
  }

  /** Trimming drops a prefix: what remains is a suffix of the queue, in order. */
  lemma {:induction false} TrimmedIsSuffix(bs: seq<Entry>, cutoff: real)
    ensures |Trimmed(bs, cutoff)| <= |bs|
    ensures Trimmed(bs, cutoff) == bs[|bs| - |Trimmed(bs, cutoff)|..]
    decreases |bs|
  {
    if |bs| > 0 && bs[0].ts < cutoff {
      TrimmedIsSuffix(bs[1..], cutoff);
    }
  }

  /** Only entries older than the cutoff are dropped, and the new front is not older. */
  lemma {:induction false} TrimmedDropsOnlyOld(bs: seq<Entry>, cutoff: real)
    ensures var r := Trimmed(bs, cutoff);
      && (r == [] || r[0].ts >= cutoff)
      && (forall i :: 0 <= i < |bs| - |r| ==> bs[i].ts < cutoff)
    decreases |bs|
  {
    TrimmedIsSuffix(bs, cutoff);
    if |bs| > 0 && bs[0].ts < cutoff {
      TrimmedDropsOnlyOld(bs[1..], cutoff);
      TrimmedIsSuffix(bs[1..], cutoff);
    }
  }

  /** An entry whose timestamp is not below the cutoff (in particular one equal
      to it, the comparison being strict) is always retained. */
  lemma TrimmedKeepsRecent(bs: seq<Entry>, cutoff: real, i: nat)
    requires i < |bs| && bs[i].ts >= cutoff
    ensures i >= |bs| - |Trimmed(bs, cutoff)|
    ensures Trimmed(bs, cutoff)[i - (|bs| - |Trimmed(bs, cutoff)|)] == bs[i]
  {
    TrimmedIsSuffix(bs, cutoff);
    TrimmedDropsOnlyOld(bs, cutoff);
  }

  /** Trimming twice at the same cutoff is trimming once. */
  lemma TrimmedIdempotent(bs: seq<Entry>, cutoff: real)
    ensures Trimmed(Trimmed(bs, cutoff), cutoff) == Trimmed(bs, cutoff)
  {
    TrimmedDropsOnlyOld(bs, cutoff);
  }

  /** `sum(t)` reports the values retained after trimming at `t`, and a second
      call with the same `t` changes nothing and reports the same sum. */
  lemma SumAtIsStable(w: Window, ts: real)
    ensures SumAt(w, ts) == Total(TrimAt(w, ts).buckets)
    ensures TrimAt(TrimAt(w, ts), ts) == TrimAt(w, ts)
    ensures SumAt(TrimAt(w, ts), ts) == SumAt(w, ts)
  {
    TrimmedIdempotent(w.buckets, ts - w.windowMs);
  }

  /** Adding at `ts` with a non-negative horizon keeps the new entry at the back,
      and summing right after counts it on top of the retained older entries. */
  lemma AddKeepsNewEntry(w: Window, value: real, ts: real)
    requires w.windowMs >= 0.0
    ensures var b := Add(w, value, ts).buckets;
      b != [] && b[|b| - 1] == Entry(ts, value)
    ensures SumAt(Add(w, value, ts), ts) == Total(Add(w, value, ts).buckets)
  {
    var bs := w.buckets + [Entry(ts, value)];
    TrimmedKeepsRecent(bs, ts - w.windowMs, |bs| - 1);
    TrimmedIdempotent(bs, ts - w.windowMs);
  }

  /** With timestamps added in non-decreasing order, no entry older than the
      cutoff survives a trim: every retained entry lies inside the horizon. */
  lemma TrimmedOrderedInsideHorizon(bs: seq<Entry>, cutoff: real)
    requires Ordered(bs)
    ensures Ordered(Trimmed(bs, cutoff))
    ensures forall i :: 0 <= i < |Trimmed(bs, cutoff)| ==> Trimmed(bs, cutoff)[i].ts >= cutoff
  {
    TrimmedIsSuffix(bs, cutoff);
    TrimmedDropsOnlyOld(bs, cutoff);
    var r := Trimmed(bs, cutoff);
    var k := |bs| - |r|;
    forall i | 0 <= i < |r| ensures r[i].ts >= cutoff {
      assert r[i] == bs[k + i] && r[0] == bs[k];
    }
  }

  /** Appending an entry no older than the back keeps the queue ordered,
      so `add` with non-decreasing timestamps keeps every window ordered. */
  lemma AddKeepsOrdered(w: Window, value: real, ts: real)
    requires Ordered(w.buckets)
    requires w.buckets == [] || w.buckets[|w.buckets| - 1].ts <= ts
    ensures Ordered(Add(w, value, ts).buckets)
  {
    var bs := w.buckets + [Entry(ts, value)];
    assert Ordered(bs) by {
      forall i, j | 0 <= i < j < |bs| ensures bs[i].ts <= bs[j].ts {
        if j == |bs| - 1 && i < |w.buckets| {
          assert w.buckets[i].ts <= w.buckets[|w.buckets| - 1].ts || i == |w.buckets| - 1;
        }
      }
    }
    TrimmedOrderedInsideHorizon(bs, ts - w.windowMs);
  }
}
