/** `src/coinbase/ws.ts`: the Coinbase WebSocket client with its subscription
    list and exponential reconnect backoff.

    The socket itself and the timer are not objects here: the client records
    the socket's ready state, whether a reconnect timer is pending (and its
    delay), and the frames sent on the current socket. Socket events (open,
    close, error) and the timer firing are methods the environment calls. */
module CoinbaseWs {
  import opened Wrappers
  import opened Sorting
  import opened MathUtils

  const InitialBackoffMs: real := 1000.0
  const MaxBackoffMs: real := 30000.0

  // ---------------------------------------------------------------- product list

  /** `[...new Set(productIds)]`: duplicates removed, first occurrences kept. */
  function Dedup(s: seq<string>): (r: seq<string>)
    ensures Distinct(r)
    ensures forall x :: x in r <==> x in s
    ensures |r| <= |s|
  {
    if s == [] then []
    else
      var d := Dedup(s[..|s| - 1]);
      var x := s[|s| - 1];
      assert forall y :: y in s <==> y in s[..|s| - 1] || y == x by {
        assert s == s[..|s| - 1] + [x];
      }
      if x in d then d else d + [x]
  }

  /** Deduplication keeps the order of first occurrences: of two kept
      elements, the earlier one occurs in `s` before the later one first does. */
  lemma {:induction false} DedupKeepsFirstOccurrenceOrder(s: seq<string>)
    ensures forall i, j :: 0 <= i < j < |Dedup(s)| ==>
      exists p :: 0 <= p < |s| && s[p] == Dedup(s)[i] && Dedup(s)[j] !in s[..p + 1]
  {
    if s != [] {
      var init := s[..|s| - 1];
      var x := s[|s| - 1];
      var d := Dedup(init);
      var r := Dedup(s);
      assert r == if x in d then d else d + [x];
      DedupKeepsFirstOccurrenceOrder(init);
      forall i, j | 0 <= i < j < |r|
        ensures exists p :: 0 <= p < |s| && s[p] == r[i] && r[j] !in s[..p + 1]
      {
        if j < |d| {
          var p :| 0 <= p < |init| && init[p] == d[i] && d[j] !in init[..p + 1];
          assert s[..p + 1] == init[..p + 1];
          assert r[i] == d[i] && r[j] == d[j];
          assert s[p] == r[i] && r[j] !in s[..p + 1];
        } else {
          assert x !in d && r == d + [x] && r[j] == x && r[i] == d[i];
          assert d[i] in d;
          assert d[i] in init;
          var p :| 0 <= p < |init| && init[p] == d[i];
          assert s[..p + 1] == init[..p + 1];
          assert x !in init;
          assert s[p] == r[i] && r[j] !in s[..p + 1];
        }
      }
    } else {
      assert |Dedup(s)| == 0;
    }
  }

  /** A list without duplicates is kept as it is, so deduplication is idempotent. */
  lemma {:induction false} DedupOfDistinct(s: seq<string>)
    requires Distinct(s)
    ensures Dedup(s) == s
  {
    if s != [] {
      var init := s[..|s| - 1];
      assert Distinct(init);
      DedupOfDistinct(init);
      assert s[|s| - 1] !in init;
      assert s == init + [s[|s| - 1]];
    }
  }

  // ---------------------------------------------------------------- frames

  /** A subscribe or unsubscribe payload; both name the channels ticker,
      matches and level2. */
  datatype Frame = SubscribeFrame(productIds: seq<string>) | UnsubscribeFrame(productIds: seq<string>)

  /** The products a connection is subscribed to after receiving `frames`. */
  function Subscribed(frames: seq<Frame>): set<string> {
    if frames == [] then {}
    else
      var before := Subscribed(frames[..|frames| - 1]);
      match frames[|frames| - 1]
      case SubscribeFrame(ids) => before + (set x | x in ids)
      case UnsubscribeFrame(ids) => before - (set x | x in ids)
  }

  lemma SubscribedStep(frames: seq<Frame>, f: Frame)
    ensures Subscribed(frames + [f]) == match f
      case SubscribeFrame(ids) => Subscribed(frames) + (set x | x in ids)
      case UnsubscribeFrame(ids) => Subscribed(frames) - (set x | x in ids)
  {
    assert (frames + [f])[..|frames|] == frames;
  }

  // ---------------------------------------------------------------- backoff

  function Pow2(k: nat): nat {
    if k == 0 then 1 else 2 * Pow2(k - 1)
  }

  /** The timer's update, `Math.min(backoffMs * 2, 30000)`. */
  function NextBackoff(b: real): real {
    Min(b * 2.0, MaxBackoffMs)
  }

  /** The backoff after `k` reconnect attempts without an open in between. */
  function BackoffAfter(k: nat): real {
    if k == 0 then InitialBackoffMs else NextBackoff(BackoffAfter(k - 1))
  }

  /** The backoff doubles from one second and is capped at thirty. */
  lemma {:induction false} BackoffIsCappedDoubling(k: nat)
    ensures BackoffAfter(k) == Min(InitialBackoffMs * Pow2(k) as real, MaxBackoffMs)
    ensures InitialBackoffMs <= BackoffAfter(k) <= MaxBackoffMs
  {
    if k > 0 {
      BackoffIsCappedDoubling(k - 1);
      assert Pow2(k) as real == 2.0 * Pow2(k - 1) as real;
    }
  }

  lemma {:induction false} Pow2AtLeast(k: nat)
    requires k >= 5
    ensures Pow2(k) >= 32
  {
    if k > 5 {
      Pow2AtLeast(k - 1);
    }
  }

  /** From the fifth attempt on, every reconnect waits the full 30 seconds. */
  lemma BackoffReachesCap(k: nat)
    requires k >= 5
    ensures BackoffAfter(k) == MaxBackoffMs
  {
    BackoffIsCappedDoubling(k);
    Pow2AtLeast(k);
  }

  // ---------------------------------------------------------------- the client

  /** `WebSocket.readyState`. */
  datatype ReadyState = Connecting | Open | Closing | Closed

  class CoinbaseWsClient {
    /** `ws`: `None` until the first `connect`. */
    var socket: Option<ReadyState>
    /** `reconnectTimer !== null`, and the delay it was armed with. */
    var reconnectPending: bool
    var reconnectDelayMs: real
    var backoffMs: real
    var productIds: seq<string>
    /** The frames sent on the current socket. */
    var sent: seq<Frame>
    /** Reconnect attempts since the last open. */
    ghost var failedAttempts: nat

    ghost predicate Valid()
      reads this
    {
      && backoffMs == BackoffAfter(failedAttempts)
      && (socket == None || socket == Some(Connecting) ==> sent == [])
      && Distinct(productIds)
    }

    /** While the socket is open it is subscribed to exactly the product list. */
    ghost predicate SubscriptionExact()
      reads this
    {
      socket == Some(Open) ==> Subscribed(sent) == set x | x in productIds
    }

    /** While the socket is open every listed product is subscribed; others
        may be subscribed too. */
    ghost predicate SubscriptionCovers()
      reads this
    {
      socket == Some(Open) ==> (set x | x in productIds) <= Subscribed(sent)
    }

    constructor ()
      ensures Valid() && SubscriptionExact()
      ensures socket == None && !reconnectPending && backoffMs == InitialBackoffMs && productIds == []
    {
      socket := None;
      reconnectPending := false;
      reconnectDelayMs := 0.0;
      backoffMs := InitialBackoffMs;
      productIds := [];
      sent := [];
      failedAttempts := 0;
    }

    /** `connect`: cancels a pending reconnect and opens a new socket. */
    method Connect()
      requires Valid()
      modifies this
      ensures Valid() && SubscriptionExact()
      ensures socket == Some(Connecting) && sent == [] && !reconnectPending
      ensures backoffMs == old(backoffMs) && productIds == old(productIds) && failedAttempts == old(failedAttempts)
      ensures reconnectDelayMs == old(reconnectDelayMs)
    {
      ClearReconnect();
      socket := Some(Connecting);
      sent := [];
    }

    /** The socket's open event: the backoff resets and the product list is subscribed. */
    method HandleOpen()
      requires Valid() && socket == Some(Connecting)
      modifies this
      ensures Valid() && SubscriptionExact()
      ensures socket == Some(Open) && backoffMs == InitialBackoffMs && failedAttempts == 0
      ensures sent == if |productIds| > 0 then [SubscribeFrame(productIds)] else []
      ensures productIds == old(productIds)
      ensures reconnectPending == old(reconnectPending) && reconnectDelayMs == old(reconnectDelayMs)
    {
      socket := Some(Open);
      backoffMs := InitialBackoffMs;
      failedAttempts := 0;
      if |productIds| > 0 {
        Subscribe(productIds);
      }
      SubscribedStep([], SubscribeFrame(productIds));
    }

    /** The socket's close event: a reconnect is scheduled. */
    method HandleClose()
      requires Valid() && socket.Some?
      modifies this
      ensures Valid() && SubscriptionExact()
      ensures socket == Some(Closed) && reconnectPending
      ensures !old(reconnectPending) ==> reconnectDelayMs == backoffMs
      ensures old(reconnectPending) ==> reconnectDelayMs == old(reconnectDelayMs)
      ensures backoffMs == old(backoffMs) && productIds == old(productIds) && failedAttempts == old(failedAttempts)
    {
      socket := Some(Closed);
      ScheduleReconnect();
    }

    /** The socket's error event closes it; the close event follows. */
    method HandleError()
      requires Valid()
      modifies this`socket
      ensures Valid() && SubscriptionExact()
      ensures socket == if old(socket) == Some(Connecting) || old(socket) == Some(Open) then Some(Closing) else old(socket)
    {
      if socket == Some(Connecting) || socket == Some(Open) {
        socket := Some(Closing);
      }
    }

    /** The reconnect timer fires: the backoff doubles (capped) and a new socket is opened. */
    method FireReconnectTimer()
      requires Valid() && reconnectPending
      modifies this
      ensures Valid() && SubscriptionExact()
      ensures backoffMs == NextBackoff(old(backoffMs)) && failedAttempts == old(failedAttempts) + 1
      ensures socket == Some(Connecting) && sent == [] && !reconnectPending && productIds == old(productIds)
    {
      reconnectPending := false;
      backoffMs := Min(backoffMs * 2.0, MaxBackoffMs);
      failedAttempts := failedAttempts + 1;
      Connect();
    }

    method IsConnected() returns (b: bool)
      ensures b <==> socket == Some(Open)
    {
      b := socket == Some(Open);
    }

    /** `setProducts` as written: the new list is stored before `unsubscribeAll`,
        so the unsubscribe frame names the new products and every old product
        stays subscribed. */
    method SetProducts(ids: seq<string>)
      requires Valid()
      modifies this`productIds, this`sent
      ensures Valid() && SubscriptionCovers()
      ensures productIds == Dedup(ids)
      ensures old(socket) == Some(Open) ==>
        sent == old(sent) + [UnsubscribeFrame(productIds), SubscribeFrame(productIds)]
        && Subscribed(sent) == Subscribed(old(sent)) + set x | x in ids
      ensures old(socket) != Some(Open) ==> sent == old(sent)
    {
      productIds := Dedup(ids);
      var connected := IsConnected();
      if connected {
        UnsubscribeAll();
        Subscribe(productIds);
        SubscribedStep(old(sent), UnsubscribeFrame(productIds));
        SubscribedStep(old(sent) + [UnsubscribeFrame(productIds)], SubscribeFrame(productIds));
      }
    }

    /** `setProducts` with the old list unsubscribed before the new one is
        stored: an exact subscription stays exact. */
    method SetProductsCorrected(ids: seq<string>)
      requires Valid() && SubscriptionExact()
      modifies this`productIds, this`sent
      ensures Valid() && SubscriptionExact()
      ensures productIds == Dedup(ids)
      ensures old(socket) == Some(Open) ==>
        sent == old(sent) + [UnsubscribeFrame(old(productIds)), SubscribeFrame(productIds)]
      ensures old(socket) != Some(Open) ==> sent == old(sent)
    {
      var connected := IsConnected();
      if connected {
        UnsubscribeAll();
        SubscribedStep(sent[..|sent| - 1], UnsubscribeFrame(productIds));
        assert sent[..|sent| - 1] == old(sent);
      }
      productIds := Dedup(ids);
      if connected {
        Subscribe(productIds);
        SubscribedStep(old(sent) + [UnsubscribeFrame(old(productIds))], SubscribeFrame(productIds));
      }
    }

    /** `subscribe`: sends only on an open socket. */
    method Subscribe(ids: seq<string>)
      modifies this`sent
      ensures sent == if socket == Some(Open) then old(sent) + [SubscribeFrame(ids)] else old(sent)
    {
      if socket != Some(Open) {
        return;
      }
      sent := sent + [SubscribeFrame(ids)];
    }

    /** `unsubscribeAll`: sends the current list, only on an open socket. */
    method UnsubscribeAll()
      modifies this`sent
      ensures sent == if socket == Some(Open) then old(sent) + [UnsubscribeFrame(productIds)] else old(sent)
    {
      if socket != Some(Open) {
        return;
      }
      sent := sent + [UnsubscribeFrame(productIds)];
    }

    /** `close`: cancels a pending reconnect and closes the socket. The close
        event that follows arms a new reconnect (`CloseThenCloseEvent`). */
    method Close()
      requires Valid()
      modifies this`socket, this`reconnectPending
      ensures Valid() && !reconnectPending
      ensures socket == if old(socket) == Some(Connecting) || old(socket) == Some(Open) then Some(Closing) else old(socket)
    {
      ClearReconnect();
      if socket == Some(Connecting) || socket == Some(Open) {
        socket := Some(Closing);
      }
    }

    /** `scheduleReconnect`: at most one timer, armed with the current backoff. */
    method ScheduleReconnect()
      modifies this`reconnectPending, this`reconnectDelayMs
      ensures reconnectPending
      ensures reconnectDelayMs == if old(reconnectPending) then old(reconnectDelayMs) else backoffMs
    {
      if reconnectPending {
        return;
      }
      reconnectDelayMs := backoffMs;
      reconnectPending := true;
    }

    method ClearReconnect()
      modifies this`reconnectPending
      ensures !reconnectPending
    {
      reconnectPending := false;
    }
  }

  /** `close()` followed by the socket's close event: the event handler
      schedules a reconnect with the current backoff, so closing the client
      does not stop it from reconnecting. */
  method CloseThenCloseEvent(c: CoinbaseWsClient)
    requires c.Valid() && c.socket.Some?
    modifies c
    ensures c.Valid() && c.socket == Some(Closed)
    ensures c.reconnectPending && c.reconnectDelayMs == c.backoffMs
    ensures c.backoffMs == old(c.backoffMs) && c.productIds == old(c.productIds)
  {
    c.Close();
    c.HandleClose();
  }

  /** The subscription left by `SetProducts` as written when switching an open
      connection from ["BTC-USD"] to ["ETH-USD"]: both remain subscribed. */
  lemma SetProductsLeavesOldSubscribed()
    ensures Subscribed([SubscribeFrame(["BTC-USD"]), UnsubscribeFrame(["ETH-USD"]), SubscribeFrame(["ETH-USD"])]) == {"BTC-USD", "ETH-USD"}
  {
    var f0 := [SubscribeFrame(["BTC-USD"])];
    var f1 := f0 + [UnsubscribeFrame(["ETH-USD"])];
    SubscribedStep([], SubscribeFrame(["BTC-USD"]));
    SubscribedStep(f0, UnsubscribeFrame(["ETH-USD"]));
    SubscribedStep(f1, SubscribeFrame(["ETH-USD"]));
    assert (set x | x in ["BTC-USD"]) == {"BTC-USD"};
    assert (set x | x in ["ETH-USD"]) == {"ETH-USD"};
    assert [SubscribeFrame(["BTC-USD"]), UnsubscribeFrame(["ETH-USD"]), SubscribeFrame(["ETH-USD"])] == f1 + [SubscribeFrame(["ETH-USD"])];
  }
}
