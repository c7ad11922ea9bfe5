/**
 * The streaming connection (WebsocketService): connect, the socket's open,
 * close and message handlers, the subscription burst and the stale-connection
 * watchdog. The current time is a parameter; the two timers are option
 * fields, and ghost counters of the callbacks still scheduled show that at
 * most one of each kind is ever live.
 */
module Websocket {
  import opened Feed
  import opened MapOrders
  import opened OrderStorage

  const InitialDelay: nat := 1000
  const MaxDelay: nat := 30000
  /** The watchdog closes a connection that had no message for longer than this. */
  const StaleAfter: int := 10000
  const WatchPeriod: nat := 5000

  // ---------------------------------------------------------------------------
  // Reconnect backoff

  /** `Math.min(this.reconnectDelay * 2, 30000)`. */
  function NextDelay(d: nat): nat
  {
    Min(d * 2, MaxDelay)
  }

  /** The delay after `n` closes since the last open. */
  function DelayAfter(n: nat): nat
  {
    if n == 0 then InitialDelay else NextDelay(DelayAfter(n - 1))
  }

  function Pow2(n: nat): (p: nat)
    ensures p >= 1
  {
    if n == 0 then 1 else 2 * Pow2(n - 1)
  }

  /** Doubling with a cap: after `n` closes the delay is `min(1000 * 2^n, 30000)`. */
  lemma {:induction false} DelayAfterClosed(n: nat)
    ensures DelayAfter(n) == Min(InitialDelay * Pow2(n), MaxDelay)
  {
    if n > 0 {
      DelayAfterClosed(n - 1);
    }
  }

  /** The delay never leaves [1000, 30000], and it reaches the cap at the fifth close. */
  lemma DelayBounds(n: nat)
    ensures InitialDelay <= DelayAfter(n) <= MaxDelay
    ensures n >= 5 ==> DelayAfter(n) == MaxDelay
  {
    DelayAfterClosed(n);
    if n >= 5 {
      Pow2AtLeast(n, 5);
    }
  }

  lemma {:induction false} Pow2AtLeast(n: nat, k: nat)
    requires k <= n
    ensures Pow2(k) <= Pow2(n)
  {
    if k < n {
      Pow2AtLeast(n - 1, k);
    }
  }

  // ---------------------------------------------------------------------------
  // Messages

  /** `String.prototype.includes`. */
  function Includes(s: string, sub: string): bool
    decreases |s|
  {
    if |s| < |sub| then false else s[..|sub|] == sub || Includes(s[1..], sub)
  }

  predicate OccursAt(s: string, sub: string, i: int) {
    0 <= i && i + |sub| <= |s| && s[i..i + |sub|] == sub
  }

  /** `includes` holds exactly when the substring occurs at some position. */
  lemma {:induction false} IncludesAt(s: string, sub: string)
    ensures Includes(s, sub) <==> exists i :: OccursAt(s, sub, i)
    decreases |s|
  {
    if |s| < |sub| {
    } else if s[..|sub|] == sub {
      assert OccursAt(s, sub, 0);
    } else {
      var t := s[1..];
      IncludesAt(t, sub);
      if Includes(t, sub) {
        var i :| OccursAt(t, sub, i);
        assert t[i..i + |sub|] == s[i + 1..i + 1 + |sub|];
        assert OccursAt(s, sub, i + 1);
      }
      if exists i :: OccursAt(s, sub, i) {
        var i :| OccursAt(s, sub, i);
        assert i > 0;
        assert t[i - 1..i - 1 + |sub|] == s[i..i + |sub|];
        assert OccursAt(t, sub, i - 1);
      }
    }
  }

  /** A string lacking some character of `sub` does not include it. */
  lemma {:induction false} LacksChar(s: string, sub: string, k: nat)
    requires k < |sub| && sub[k] !in s
    ensures !Includes(s, sub)
    decreases |s|
  {
    if |s| >= |sub| {
      assert s[..|sub|][k] == s[k];
      LacksChar(s[1..], sub, k);
    }
  }

  /** A frame written to a socket: `{ type: 'subscribe', event }`. */
  datatype Frame = Subscribe(socket: nat, event: string)

  /** A socket handle; `open` is `readyState === OPEN`. */
  datatype Socket = Socket(id: nat, open: bool)

  /** The reconnect `setTimeout`: its delay, and whether its callback has run. */
  datatype Timeout = Timeout(delay: nat, fired: bool)

  /** A message: text that JSON.parse rejects, or the destructured fields (absent is None). */
  datatype Message =
    | Unparseable
    | Parsed(msgType: Option<string>, status: Option<string>, event: Option<string>,
             data: Option<RawOrder>, publishedAt: Option<int>)

  /** The subscription frames onConnected sends, in order; none without a socket (`ws?.send`). */
  function SubscribeFrames(ws: Option<Socket>): (r: seq<Frame>)
    ensures ws.None? ==> r == []
    ensures ws.Some? ==> |r| == 4 && forall i :: 0 <= i < 4 ==> r[i].socket == ws.value.id
    ensures ws.Some? ==>
      [r[0].event, r[1].event, r[2].event, r[3].event] == ["ask.created", "ask.updated", "bid.created", "bid.updated"]
  {
    if ws.None? then []
    else
      var id := ws.value.id;
      [Subscribe(id, "ask.created"), Subscribe(id, "ask.updated"), Subscribe(id, "bid.created"), Subscribe(id, "bid.updated")]
  }

  predicate IsAck(msg: Message) {
    msg.Parsed? && msg.event == Some("subscribe")
  }

  predicate IsReady(msg: Message) {
    msg.Parsed? && msg.msgType == Some("connection") && msg.status == Some("ready")
  }

  /** An order event: neither a subscribe ack nor the ready message. */
  predicate IsOrderEvent(msg: Message) {
    msg.Parsed? && !IsAck(msg) && !IsReady(msg)
  }

  predicate Mentions(msg: Message, word: string) {
    msg.Parsed? && msg.event.Some? && Includes(msg.event.value, word)
  }

  /** The ask branch throws: the event mentions 'ask' and mapAsk cannot map the data. */
  predicate AskThrows(msg: Message) {
    IsOrderEvent(msg) && Mentions(msg, "ask") && (msg.data.None? || MapAsk(msg.data.value).Failure?)
  }

  /** The ask a message saves, if any. */
  function SavedAsk(msg: Message): Option<Ask>
  {
    if IsOrderEvent(msg) && Mentions(msg, "ask") && msg.data.Some? && MapAsk(msg.data.value).Success?
    then Some(MapAsk(msg.data.value).value) else None
  }

  /** The bid a message saves, if any: only when the ask branch did not throw first. */
  function SavedBid(msg: Message): Option<Bid>
  {
    if IsOrderEvent(msg) && !AskThrows(msg) && Mentions(msg, "bid") && msg.data.Some? && MapBid(msg.data.value).Success?
    then Some(MapBid(msg.data.value).value) else None
  }

  function UpsertOpt<T>(m: map<string, T>, x: Option<T>, key: T -> string): map<string, T>
  {
    if x.Some? then m[key(x.value) := x.value] else m
  }

  /** The two ask events go to the ask branch only. */
  lemma AskEventsRoute(event: string)
    requires event == "ask.created" || event == "ask.updated"
    ensures Includes(event, "ask") && !Includes(event, "bid")
  {
    assert event[..3] == "ask";
    LacksChar(event, "bid", 0);
  }

  /** The two bid events go to the bid branch only. */
  lemma BidEventsRoute(event: string)
    requires event == "bid.created" || event == "bid.updated"
    ensures Includes(event, "bid") && !Includes(event, "ask")
  {
    assert event[..3] == "bid";
    LacksChar(event, "ask", 2);
  }

  // ---------------------------------------------------------------------------
  // The service

  class WebsocketService {
    const storage: OrderStore
    var ws: Option<Socket>
    /** How many sockets `connect` has created; socket ids count from 0. */
    var socketsOpened: nat
    /** Sockets detached and closed by `connect`, in order. */
    ghost var discarded: seq<nat>
    var isConnected: bool
    var reconnectDelay: nat
    var reconnectTimeout: Option<Timeout>
    /** The watchdog `setInterval`, holding its period. */
    var watcherInterval: Option<nat>
    var lastMessageTimestamp: int
    var lastMessageReceivedAt: int
    /** Frames written to sockets, in order. */
    var sent: seq<Frame>
    /** Closes since the last open. */
    ghost var closes: nat
    /** Reconnect callbacks scheduled and neither cleared nor run yet. */
    ghost var liveTimeouts: nat
    /** Watchdog intervals created and not cleared yet. */
    ghost var liveWatchers: nat

    ghost predicate Valid()
      reads this
    {
      && reconnectDelay == DelayAfter(closes)
      && (closes == 0 <==> reconnectTimeout.None?)
      && (reconnectTimeout.Some? ==> closes > 0 && reconnectTimeout.value.delay == DelayAfter(closes - 1))
      && liveTimeouts == (if reconnectTimeout.Some? && !reconnectTimeout.value.fired then 1 else 0)
      && liveWatchers == (if watcherInterval.Some? then 1 else 0)
      && lastMessageReceivedAt >= 0
      && (ws.Some? ==> ws.value.id == socketsOpened - 1)
      && |discarded| + (if ws.Some? then 1 else 0) == socketsOpened
    }

    ghost function Sockets(): (Option<Socket>, nat, seq<nat>)
      reads this
    {
      (ws, socketsOpened, discarded)
    }

    ghost function Reconnect(): (bool, nat, Option<Timeout>, nat, nat)
      reads this
    {
      (isConnected, reconnectDelay, reconnectTimeout, closes, liveTimeouts)
    }

    ghost function Watch(): (Option<nat>, nat, seq<Frame>)
      reads this
    {
      (watcherInterval, liveWatchers, sent)
    }

    ghost function Clock(): (int, int)
      reads this
    {
      (lastMessageTimestamp, lastMessageReceivedAt)
    }

    constructor (storage: OrderStore)
      ensures Valid() && this.storage == storage
      ensures ws.None? && socketsOpened == 0 && !isConnected && reconnectDelay == InitialDelay
      ensures reconnectTimeout.None? && watcherInterval.None? && sent == []
      ensures lastMessageTimestamp == 0 && lastMessageReceivedAt == 0
    {
      this.storage := storage;
      ws := None;
      socketsOpened := 0;
      discarded := [];
      isConnected := false;
      reconnectDelay := InitialDelay;
      reconnectTimeout := None;
      watcherInterval := None;
      lastMessageTimestamp := 0;
      lastMessageReceivedAt := 0;
      sent := [];
      closes := 0;
      liveTimeouts := 0;
      liveWatchers := 0;
    }

    /** The delay schedule in closed form: what the pending reconnect and the next one wait. */
    lemma BackoffSchedule()
      requires Valid()
      ensures InitialDelay <= reconnectDelay <= MaxDelay
      ensures reconnectDelay == Min(InitialDelay * Pow2(closes), MaxDelay)
      ensures reconnectTimeout.Some? ==> reconnectTimeout.value.delay == Min(InitialDelay * Pow2(closes - 1), MaxDelay)
    {
      DelayBounds(closes);
      DelayAfterClosed(closes);
      if closes > 0 {
        DelayAfterClosed(closes - 1);
      }
    }

    /** `connect`: nothing while connected; otherwise detach and close the old socket, then open a new one. */
    method Connect()
      requires Valid()
      modifies this
      ensures Valid()
      ensures old(isConnected) ==> Sockets() == old(Sockets())
      ensures !old(isConnected) ==>
        ws == Some(Socket(old(socketsOpened), false)) && socketsOpened == old(socketsOpened) + 1 &&
        discarded == old(discarded) + (if old(ws).Some? then [old(ws).value.id] else [])
      ensures Reconnect() == old(Reconnect()) && Watch() == old(Watch()) && Clock() == old(Clock())
    {
      if isConnected {
        return;
      }
      if ws.Some? {
        discarded := discarded + [ws.value.id];
        ws := None;
      }
      ws := Some(Socket(socketsOpened, false));
      socketsOpened := socketsOpened + 1;
    }

    /** `subscribe`: `ws?.send` of one subscription frame. */
    method Subscribe(event: string)
      modifies this`sent
      ensures sent == old(sent) + (if ws.Some? then [Frame.Subscribe(ws.value.id, event)] else [])
    {
      if ws.Some? {
        sent := sent + [Frame.Subscribe(ws.value.id, event)];
      }
    }

    /** `onConnected`: replace the watchdog (clearing the old one first) and subscribe to the four events. */
    method OnConnected()
      requires Valid()
      modifies this
      ensures Valid()
      ensures watcherInterval == Some(WatchPeriod) && liveWatchers == 1
      ensures sent == old(sent) + SubscribeFrames(ws)
      ensures Sockets() == old(Sockets()) && Reconnect() == old(Reconnect()) && Clock() == old(Clock())
    {
      if watcherInterval.Some? {
        watcherInterval := None;
        liveWatchers := liveWatchers - 1;
      }
      Subscribe("ask.created");
      Subscribe("ask.updated");
      Subscribe("bid.created");
      Subscribe("bid.updated");
      watcherInterval := Some(WatchPeriod);
      liveWatchers := liveWatchers + 1;
    }

    /** `onOpen`: connected, delay reset, subscriptions sent, pending reconnect cleared. */
    method OnOpen()
      requires Valid()
      modifies this
      ensures Valid()
      ensures isConnected && reconnectDelay == InitialDelay && reconnectTimeout.None? && liveTimeouts == 0
      ensures ws == (if old(ws).Some? then Some(Socket(old(ws).value.id, true)) else None)
      ensures socketsOpened == old(socketsOpened) && discarded == old(discarded)
      ensures watcherInterval == Some(WatchPeriod) && liveWatchers == 1
      ensures sent == old(sent) + SubscribeFrames(ws)
      ensures Clock() == old(Clock())
    {
      if ws.Some? {
        ws := Some(Socket(ws.value.id, true));
      }
      isConnected := true;
      reconnectDelay := InitialDelay;
      closes := 0;
      ghost var pending := reconnectTimeout;
      ClearReconnect();
      OnConnected();
      // the clearTimeout of the source comes after onConnected; the ghost
      // update above stands for it, since onConnected does not touch the timer
      assert pending.Some? ==> pending.value.delay == DelayAfter(old(closes) - 1);
    }

    /** `clearTimeout` of the pending reconnect, if any: its callback will not run. */
    method ClearReconnect()
      requires liveTimeouts == (if reconnectTimeout.Some? && !reconnectTimeout.value.fired then 1 else 0)
      modifies this`reconnectTimeout, this`liveTimeouts
      ensures reconnectTimeout.None? && liveTimeouts == 0
    {
      if reconnectTimeout.Some? {
        if !reconnectTimeout.value.fired {
          liveTimeouts := liveTimeouts - 1;
        }
        reconnectTimeout := None;
      }
    }

    /**
     * `onClose`: disconnected, the open socket closed, exactly one reconnect
     * pending with the delay before the update, and the delay doubled up to
     * the cap.
     */
    method OnClose()
      requires Valid()
      modifies this
      ensures Valid()
      ensures !isConnected
      ensures reconnectTimeout == Some(Timeout(old(reconnectDelay), false)) && liveTimeouts == 1
      ensures reconnectDelay == NextDelay(old(reconnectDelay)) && closes == old(closes) + 1
      ensures ws == (if old(ws).Some? then Some(Socket(old(ws).value.id, false)) else None)
      ensures socketsOpened == old(socketsOpened) && discarded == old(discarded)
      ensures Watch() == old(Watch()) && Clock() == old(Clock())
    {
      isConnected := false;
      if ws.Some? && ws.value.open {
        ws := Some(Socket(ws.value.id, false));
      }
      ClearReconnect();
      reconnectTimeout := Some(Timeout(reconnectDelay, false));
      liveTimeouts := liveTimeouts + 1;
      reconnectDelay := NextDelay(reconnectDelay);
      closes := closes + 1;
    }

    /** The reconnect timer's callback: the timer has run, then `connect`. */
    method OnReconnectTimer()
      requires Valid() && reconnectTimeout.Some? && !reconnectTimeout.value.fired
      modifies this
      ensures Valid()
      ensures reconnectTimeout == Some(Timeout(old(reconnectTimeout).value.delay, true)) && liveTimeouts == 0
      ensures isConnected == old(isConnected) && reconnectDelay == old(reconnectDelay) && closes == old(closes)
      ensures old(isConnected) ==> Sockets() == old(Sockets())
      ensures !old(isConnected) ==>
        ws == Some(Socket(old(socketsOpened), false)) && socketsOpened == old(socketsOpened) + 1 &&
        discarded == old(discarded) + (if old(ws).Some? then [old(ws).value.id] else [])
      ensures Watch() == old(Watch()) && Clock() == old(Clock())
    {
      reconnectTimeout := Some(Timeout(reconnectTimeout.value.delay, true));
      liveTimeouts := 0;
      Connect();
    }

    /**
     * `onMessage`: an unparseable message changes nothing. Any other message
     * moves `lastMessageReceivedAt` up to `published_at` and stamps
     * `lastMessageTimestamp`; a subscribe ack stops there, the ready message
     * marks the connection and reruns onConnected, and an order event saves
     * the mapped ask and bid its event name mentions.
     */
    method OnMessage(msg: Message, now: int)
      requires Valid()
      modifies this, storage
      ensures Valid()
      ensures msg.Unparseable? ==>
        Sockets() == old(Sockets()) && Reconnect() == old(Reconnect()) && Watch() == old(Watch()) &&
        Clock() == old(Clock())
      ensures msg.Parsed? ==> lastMessageTimestamp == now
      ensures msg.Parsed? ==>
        lastMessageReceivedAt ==
          (if msg.publishedAt.Some? then Max(old(lastMessageReceivedAt), msg.publishedAt.value) else old(lastMessageReceivedAt))
      ensures Sockets() == old(Sockets())
      ensures !IsReady(msg) || IsAck(msg) ==> Reconnect() == old(Reconnect()) && Watch() == old(Watch())
      ensures IsReady(msg) && !IsAck(msg) ==>
        isConnected && reconnectDelay == old(reconnectDelay) && reconnectTimeout == old(reconnectTimeout) &&
        watcherInterval == Some(WatchPeriod) && liveWatchers == 1 && sent == old(sent) + SubscribeFrames(ws)
      ensures storage.asks == UpsertOpt(old(storage.asks), SavedAsk(msg), AskId)
      ensures storage.bids == UpsertOpt(old(storage.bids), SavedBid(msg), BidId)
    {
      if msg.Unparseable? {
        return;
      }
      Stamp(msg, now);
      if msg.event == Some("subscribe") {
        return;
      }
      if msg.msgType == Some("connection") && msg.status == Some("ready") {
        isConnected := true;
        OnConnected();
        return;
      }
      RouteOrder(msg);
    }

    /** The clock fields a parsed message updates. */
    method Stamp(msg: Message, now: int)
      requires Valid() && msg.Parsed?
      modifies this`lastMessageReceivedAt, this`lastMessageTimestamp
      ensures Valid() && lastMessageTimestamp == now
      ensures lastMessageReceivedAt ==
        (if msg.publishedAt.Some? then Max(old(lastMessageReceivedAt), msg.publishedAt.value) else old(lastMessageReceivedAt))
    {
      if msg.publishedAt.Some? && msg.publishedAt.value != 0 && msg.publishedAt.value > lastMessageReceivedAt {
        lastMessageReceivedAt := msg.publishedAt.value;
      }
      lastMessageTimestamp := now;
    }

    /** The ask branch, then the bid branch, of an order event; a mapping error ends the handler. */
    method RouteOrder(msg: Message)
      requires IsOrderEvent(msg)
      modifies storage
      ensures storage.asks == UpsertOpt(old(storage.asks), SavedAsk(msg), AskId)
      ensures storage.bids == UpsertOpt(old(storage.bids), SavedBid(msg), BidId)
    {
      var event := msg.event;
      if event.Some? && Includes(event.value, "ask") {
        if msg.data.None? {
          return;
        }
        var order := MapAsk(msg.data.value);
        if order.Failure? {
          return;
        }
        storage.SaveAsk(order.value);
      }
      if event.Some? && Includes(event.value, "bid") {
        if msg.data.None? {
          return;
        }
        var order := MapBid(msg.data.value);
        if order.Failure? {
          return;
        }
        storage.SaveBid(order.value);
      }
    }

    /**
     * One tick of the watchdog interval: nothing before the first message;
     * a connection silent for more than 10 seconds is closed as by onClose.
     */
    method WatchdogTick(now: int)
      requires Valid() && watcherInterval.Some?
      modifies this
      ensures Valid()
      ensures var stale := old(lastMessageTimestamp) != 0 && old(isConnected) && now - old(lastMessageTimestamp) > StaleAfter;
        if stale then
          !isConnected && reconnectTimeout == Some(Timeout(old(reconnectDelay), false)) && liveTimeouts == 1 &&
          reconnectDelay == NextDelay(old(reconnectDelay)) && closes == old(closes) + 1 &&
          ws == (if old(ws).Some? then Some(Socket(old(ws).value.id, false)) else None) &&
          socketsOpened == old(socketsOpened) && discarded == old(discarded) &&
          Watch() == old(Watch()) && Clock() == old(Clock())
        else
          Sockets() == old(Sockets()) && Reconnect() == old(Reconnect()) && Watch() == old(Watch()) &&
          Clock() == old(Clock())
    {
      if lastMessageTimestamp == 0 {
        return;
      }
      if isConnected && now - lastMessageTimestamp > StaleAfter {
        OnClose();
        return;
      }
    }
  }

  function Max(a: int, b: int): int { if a < b then b else a }
}
