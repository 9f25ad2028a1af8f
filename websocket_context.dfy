/** The client end of the push channel: one socket per signed-in user, reconnection with a
    bounded linear back-off after every close, the push buffer that `new_message` frames
    feed, and a send that is silently dropped while the channel is down.

    The pure functions below give each handler's effect on a snapshot (`Client`) of the
    provider's state; the class `WebSocketProvider` holds that state in fields and its
    methods are proved to have exactly those effects. Timers are explicit: a scheduled
    retry is a pending `Timer` with its delay, and it fires only through `Fired`. */
module WebSocketContext {
  import opened Wrappers
  import opened Text
  import opened Domain

  const MaxReconnectAttempts: nat := 5
  /** Milliseconds; the n-th consecutive retry waits n times this long. */
  const ReconnectBaseDelay: nat := 3000

  /** The channel address: the backend URL with its first `https://` turned into `wss://`,
      then its first `http://` into `ws://` (the WebSocket URI schemes of section 3 of
      RFC 6455), followed by `/ws/` and the user id. */
  function ChannelAddress(backendUrl: string, userId: Id): string {
    ReplaceFirst(ReplaceFirst(backendUrl, "https://", "wss://"), "http://", "ws://") + "/ws/" + userId
  }

  /** An `https` origin is addressed over `wss`. */
  lemma SecureOriginAddress(host: string, userId: Id)
    requires !Includes(host, "http://")
    ensures ChannelAddress("https://" + host, userId) == "wss://" + host + "/ws/" + userId
  {
    assert "https://" <= "https://" + host;
    assert ("https://" + host)[|"https://"|..] == host;
    ReplaceFirstSkips("wss://", host, "http://", "ws://");
  }

  /** An `http` origin is addressed over `ws`. */
  lemma PlainOriginAddress(host: string, userId: Id)
    requires !Includes(host, "https://")
    ensures ChannelAddress("http://" + host, userId) == "ws://" + host + "/ws/" + userId
  {
    var s := "http://" + host;
    assert !("https://" <= s) by { assert s[4] == ':'; }
    assert s[1..] == "ttp://" + host;
    ReplaceFirstSkips("ttp://", host, "https://", "wss://");
    assert ReplaceFirst(s, "https://", "wss://") == [s[0]] + ("ttp://" + host);
    assert [s[0]] + ("ttp://" + host) == s;
    assert "http://" <= s && s[|"http://"|..] == host;
  }

  /** A scheduled reconnection: the timer's id and its delay in milliseconds. */
  datatype Timer = Timer(id: nat, delay: nat)

  /** What the provider asks of the browser's socket implementation, in order. */
  datatype TransportCall =
    | OpenSocket(socket: nat, url: string)
    | SendText(socket: nat, frame: string)
    | CloseSocket(socket: nat)

  /** What `JSON.parse` makes of an inbound frame: either nothing (it threw), or an
      envelope with its `type` and its `message`. */
  datatype Payload = Unparsable | Envelope(kind: string, message: Message)

  /** Snapshot of the provider: the signed-in user, the current socket, `isConnected`,
      the attempt counter, the timer id the reconnect ref holds, the timers still pending,
      the push buffer, the transport calls made so far, and the next fresh ids. */
  datatype Client = Client(
    user: Option<Id>,
    socket: Option<nat>,
    isConnected: bool,
    attempts: nat,
    timerRef: Option<nat>,
    pending: seq<Timer>,
    buffer: seq<Message>,
    transport: seq<TransportCall>,
    nextSocket: nat,
    nextTimer: nat)

  const Initial := Client(None, None, false, 0, None, [], [], [], 0, 0)

  predicate IsBackoffDelay(d: nat) {
    d % ReconnectBaseDelay == 0 && ReconnectBaseDelay <= d <= ReconnectBaseDelay * MaxReconnectAttempts
  }

  predicate HasTimer(pending: seq<Timer>, id: nat) {
    exists i :: 0 <= i < |pending| && pending[i].id == id
  }

  /** What the provider keeps true: the attempt counter stays in 0..5, every pending retry
      waits 3000, 6000, 9000, 12000 or 15000 ms, and ids handed out are below the counters. */
  predicate Inv(c: Client) {
    && c.attempts <= MaxReconnectAttempts
    && (forall i :: 0 <= i < |c.pending| ==> c.pending[i].id < c.nextTimer && IsBackoffDelay(c.pending[i].delay))
    && (c.timerRef.Some? ==> c.timerRef.value < c.nextTimer)
    && (c.socket.Some? ==> c.socket.value < c.nextSocket)
  }

  /** `clearTimeout`, and a timer leaving the queue when it fires. */
  function WithoutTimer(pending: seq<Timer>, id: nat): (r: seq<Timer>)
    ensures !HasTimer(r, id)
    ensures forall t :: t in r <==> t in pending && t.id != id
  {
    if pending == [] then []
    else if pending[0].id == id then WithoutTimer(pending[1..], id)
    else [pending[0]] + WithoutTimer(pending[1..], id)
  }

  /** `connectWebSocket`: without a user nothing happens; otherwise a fresh socket is
      opened on the user's channel address and becomes the current one, unless the
      constructor throws (`created` false), which the handler catches. Connectivity, the
      attempt counter, the timers and the push buffer are left alone. */
  function Connect(c: Client, backendUrl: string, created: bool): (r: Client)
    ensures c.user.None? || !created ==> r == c
    ensures c.user.Some? && created ==>
      && r.socket == Some(c.nextSocket) && r.nextSocket == c.nextSocket + 1
      && r.transport == c.transport + [OpenSocket(c.nextSocket, ChannelAddress(backendUrl, c.user.value))]
    ensures r.user == c.user && r.isConnected == c.isConnected && r.attempts == c.attempts
    ensures r.timerRef == c.timerRef && r.pending == c.pending && r.buffer == c.buffer && r.nextTimer == c.nextTimer
    ensures Inv(c) ==> Inv(r)
  {
    if c.user.None? || !created then c
    else
      var url := ChannelAddress(backendUrl, c.user.value);
      c.(socket := Some(c.nextSocket), nextSocket := c.nextSocket + 1,
         transport := c.transport + [OpenSocket(c.nextSocket, url)])
  }

  /** `onopen`: connected, and the attempt counter starts again from 0. */
  function Opened(c: Client): (r: Client)
    ensures r == c.(isConnected := true, attempts := 0)
    ensures Inv(c) ==> Inv(r)
  {
    c.(isConnected := true, attempts := 0)
  }

  /** `onclose`: disconnected and without a socket. Below 5 attempts the counter goes up by
      one and exactly one retry is scheduled, after 3000 ms times the new count, and the
      reconnect ref now names it; at 5 nothing is scheduled and the counter stays. */
  function Closed(c: Client): (r: Client)
    ensures !r.isConnected && r.socket.None?
    ensures c.attempts < MaxReconnectAttempts ==>
      && r.attempts == c.attempts + 1
      && r.pending == c.pending + [Timer(c.nextTimer, ReconnectBaseDelay * r.attempts)]
      && r.timerRef == Some(c.nextTimer) && r.nextTimer == c.nextTimer + 1
    ensures c.attempts >= MaxReconnectAttempts ==>
      r.attempts == c.attempts && r.pending == c.pending && r.timerRef == c.timerRef && r.nextTimer == c.nextTimer
    ensures r.user == c.user && r.buffer == c.buffer && r.transport == c.transport && r.nextSocket == c.nextSocket
    ensures Inv(c) ==> Inv(r)
  {
    var d := c.(isConnected := false, socket := None);
    if c.attempts < MaxReconnectAttempts then
      var n := c.attempts + 1;
      d.(attempts := n, timerRef := Some(c.nextTimer),
         pending := c.pending + [Timer(c.nextTimer, ReconnectBaseDelay * n)], nextTimer := c.nextTimer + 1)
    else d
  }

  /** `handleMessage`: a `new_message` frame puts its message at the tail of the push
      buffer; `user_online`, `user_offline` and every other type leave it as it is. A frame
      that does not parse is dropped by the catch around `JSON.parse`. */
  function Dispatch(buffer: seq<Message>, p: Payload): (r: seq<Message>)
    ensures p.Envelope? && p.kind == "new_message" ==> r == buffer + [p.message]
    ensures p.Unparsable? || p.kind != "new_message" ==> r == buffer
  {
    match p
    case Unparsable => buffer
    case Envelope(kind, m) => if kind == "new_message" then buffer + [m] else buffer
  }

  /** `onmessage`: only the push buffer can change. */
  function Received(c: Client, p: Payload): (r: Client)
    ensures r == c.(buffer := Dispatch(c.buffer, p))
    ensures Inv(c) ==> Inv(r)
  {
    c.(buffer := Dispatch(c.buffer, p))
  }

  /** A pending timer fires: it leaves the queue and `connectWebSocket` runs. A timer that
      is not pending (cleared, or fired already) does nothing. */
  function Fired(c: Client, id: nat, backendUrl: string, created: bool): (r: Client)
    ensures !HasTimer(c.pending, id) ==> r == c
    ensures HasTimer(c.pending, id) ==> r == Connect(c.(pending := WithoutTimer(c.pending, id)), backendUrl, created)
    ensures r.attempts == c.attempts && r.isConnected == c.isConnected && r.timerRef == c.timerRef
    ensures Inv(c) ==> Inv(r)
  {
    if HasTimer(c.pending, id) then Connect(c.(pending := WithoutTimer(c.pending, id)), backendUrl, created)
    else c
  }

  /** The effect's cleanup: the timer the reconnect ref holds is cleared and the current
      socket, if any, is asked to close. Nothing else changes: the socket stays current
      and connected until its `onclose` arrives. */
  function CleanedUp(c: Client): (r: Client)
    ensures c.timerRef.Some? ==> !HasTimer(r.pending, c.timerRef.value)
    ensures forall t :: t in r.pending <==> t in c.pending && (c.timerRef.None? || t.id != c.timerRef.value)
    ensures r.transport == c.transport + (if c.socket.Some? then [CloseSocket(c.socket.value)] else [])
    ensures r == c.(pending := r.pending, transport := r.transport)
    ensures Inv(c) ==> Inv(r)
  {
    var d := if c.timerRef.Some? then c.(pending := WithoutTimer(c.pending, c.timerRef.value)) else c;
    if d.socket.Some? then d.(transport := d.transport + [CloseSocket(d.socket.value)]) else d
  }

  /** `sendMessage`: transmitted on the current socket when there is one and it is
      connected; otherwise nothing at all happens - no error and no queue. */
  function Sent(c: Client, frame: string): (r: Client)
    ensures c.socket.Some? && c.isConnected ==> r == c.(transport := c.transport + [SendText(c.socket.value, frame)])
    ensures c.socket.None? || !c.isConnected ==> r == c
    ensures Inv(c) ==> Inv(r)
  {
    if c.socket.Some? && c.isConnected then c.(transport := c.transport + [SendText(c.socket.value, frame)])
    else c
  }

  /** The effect keyed on `user`: the previous run's cleanup, then a connection attempt
      for the new user (none when signed out). */
  function UserChanged(c: Client, user: Option<Id>, backendUrl: string, created: bool): (r: Client)
    ensures r == Connect(CleanedUp(c).(user := user), backendUrl, created)
    ensures user.None? ==> r == CleanedUp(c).(user := None)
    ensures Inv(c) ==> Inv(r)
  {
    Connect(CleanedUp(c).(user := user), backendUrl, created)
  }

  /** Everything that can happen to the provider, one handler run at a time. */
  datatype Event =
    | SocketOpened
    | SocketClosed
    | SocketError
    | FrameArrived(payload: Payload)
    | TimerFired(id: nat, created: bool)
    | SendRequested(frame: string)
    | UserSwitched(user: Option<Id>, created: bool)

  function Step(c: Client, backendUrl: string, e: Event): Client {
    match e
    case SocketOpened => Opened(c)
    case SocketClosed => Closed(c)
    case SocketError => c
    case FrameArrived(p) => Received(c, p)
    case TimerFired(id, created) => Fired(c, id, backendUrl, created)
    case SendRequested(frame) => Sent(c, frame)
    case UserSwitched(u, created) => UserChanged(c, u, backendUrl, created)
  }

  function Run(c: Client, backendUrl: string, events: seq<Event>): Client
    decreases |events|
  {
    if events == [] then c else Run(Step(c, backendUrl, events[0]), backendUrl, events[1..])
  }

  /** Whatever happens, in whatever order, the attempt counter never leaves 0..5 and every
      pending retry waits one of the five back-off delays. */
  lemma {:induction false} RunKeepsInv(c: Client, backendUrl: string, events: seq<Event>)
    requires Inv(c)
    ensures Inv(Run(c, backendUrl, events))
    ensures Run(c, backendUrl, events).attempts <= MaxReconnectAttempts
    decreases |events|
  {
    if events != [] {
      RunKeepsInv(Step(c, backendUrl, events[0]), backendUrl, events[1..]);
    }
  }

  function Delays(ts: seq<Timer>): (r: seq<nat>)
    ensures |r| == |ts| && forall i :: 0 <= i < |ts| ==> r[i] == ts[i].delay
  {
    seq(|ts|, i requires 0 <= i < |ts| => ts[i].delay)
  }

  /** After a close: the timer the reconnect ref holds fires and a socket is created. */
  function Retry(c: Client, backendUrl: string): Client {
    if c.timerRef.Some? then Fired(c, c.timerRef.value, backendUrl, true) else c
  }

  /** A retry step that leaves the attempt counter alone, as the retry timer's
      `connectWebSocket` does. */
  ghost predicate KeepsCounter(retry: Client -> Client) {
    forall x :: retry(x).attempts == x.attempts
  }

  lemma RetryKeepsCounter(backendUrl: string)
    ensures KeepsCounter(x => Retry(x, backendUrl))
  {
  }

  /** The delays scheduled by `n` consecutive failures, each a close followed by the
      `retry` that comes after it. */
  function ScheduledDelays(c: Client, retry: Client -> Client, n: nat): seq<nat>
    decreases n
  {
    if n == 0 then []
    else
      var d := Closed(c);
      Delays(d.pending[|c.pending|..]) + ScheduledDelays(retry(d), retry, n - 1)
  }

  function Min(a: int, b: int): int { if a < b then a else b }

  /** 3000 * (a + 1), 3000 * (a + 2), ..., m delays in all. */
  function Ramp(a: nat, m: nat): (r: seq<nat>)
    ensures |r| == m
    ensures forall i :: 0 <= i < m ==> r[i] == ReconnectBaseDelay * (a + 1 + i)
  {
    seq(m, i requires 0 <= i < m => ReconnectBaseDelay * (a + 1 + i))
  }

  lemma RampStep(a: nat, m: nat)
    requires m > 0
    ensures Ramp(a, m) == [ReconnectBaseDelay * (a + 1)] + Ramp(a + 1, m - 1)
  {
    var r := [ReconnectBaseDelay * (a + 1)] + Ramp(a + 1, m - 1);
    assert forall i :: 1 <= i < m ==> r[i] == Ramp(a + 1, m - 1)[i - 1];
  }

  /** One failure: what its close schedules and the counter it leaves. */
  lemma OneFailure(c: Client)
    ensures |Closed(c).pending| >= |c.pending|
    ensures c.attempts < MaxReconnectAttempts ==> Closed(c).attempts == c.attempts + 1
    ensures c.attempts >= MaxReconnectAttempts ==> Closed(c).attempts == c.attempts
    ensures c.attempts < MaxReconnectAttempts ==> Delays(Closed(c).pending[|c.pending|..]) == [ReconnectBaseDelay * (c.attempts + 1)]
    ensures c.attempts >= MaxReconnectAttempts ==> Delays(Closed(c).pending[|c.pending|..]) == []
  {
    var d := Closed(c);
    if c.attempts < MaxReconnectAttempts {
      assert d.pending[|c.pending|..] == [Timer(c.nextTimer, ReconnectBaseDelay * (c.attempts + 1))];
    } else {
      assert d.pending[|c.pending|..] == [];
    }
  }

  /** One failure followed by the ramp of the failures after it is the ramp from the
      counter before it: `head` is what the close scheduled and `na` the counter after it. */
  lemma RampJoin(a: nat, n: nat, head: seq<nat>, na: nat, rest: seq<nat>)
    requires a <= MaxReconnectAttempts && n > 0
    requires a < MaxReconnectAttempts ==> head == [ReconnectBaseDelay * (a + 1)] && na == a + 1
    requires a >= MaxReconnectAttempts ==> head == [] && na == a
    requires rest == Ramp(na, Min(n - 1, MaxReconnectAttempts - na))
    ensures head + rest == Ramp(a, Min(n, MaxReconnectAttempts - a))
  {
    if a < MaxReconnectAttempts {
      RampStep(a, Min(n, MaxReconnectAttempts - a));
    }
  }

  /** The first of `n` failures, in terms of counters only: what its close schedules and
      the client the next failure starts from. */
  lemma FirstFailure(c: Client, retry: Client -> Client, n: nat) returns (head: seq<nat>, next: Client)
    requires n > 0 && c.attempts <= MaxReconnectAttempts && KeepsCounter(retry)
    ensures ScheduledDelays(c, retry, n) == head + ScheduledDelays(next, retry, n - 1)
    ensures c.attempts < MaxReconnectAttempts ==> head == [ReconnectBaseDelay * (c.attempts + 1)] && next.attempts == c.attempts + 1
    ensures c.attempts >= MaxReconnectAttempts ==> head == [] && next.attempts == c.attempts
  {
    next := retry(Closed(c));
    head := Delays(Closed(c).pending[|c.pending|..]);
    OneFailure(c);
  }

  /** Consecutive failures from a counter at `a`, whatever retry follows each close as
      long as it keeps the counter, schedule the delays 3000 * (a + 1), 3000 * (a + 2), ...
      up to 3000 * 5 and then nothing more. */
  lemma {:induction false} BackoffDelays(c: Client, retry: Client -> Client, n: nat)
    requires c.attempts <= MaxReconnectAttempts && KeepsCounter(retry)
    ensures ScheduledDelays(c, retry, n) == Ramp(c.attempts, Min(n, MaxReconnectAttempts - c.attempts))
    decreases n
  {
    if n > 0 {
      var head, next := FirstFailure(c, retry, n);
      BackoffDelays(next, retry, n - 1);
      RampJoin(c.attempts, n, head, next.attempts, ScheduledDelays(next, retry, n - 1));
    }
  }

  /** From a fresh or freshly opened connection, five or more consecutive failures, each
      followed by the retry timer firing, are retried after 3 s, 6 s, 9 s, 12 s and 15 s,
      and every later failure schedules no retry. */
  lemma FreshConnectionBackoff(c: Client, backendUrl: string, n: nat)
    requires c.attempts == 0 && n >= MaxReconnectAttempts
    ensures ScheduledDelays(c, x => Retry(x, backendUrl), n) == [3000, 6000, 9000, 12000, 15000]
  {
    RetryKeepsCounter(backendUrl);
    BackoffDelays(c, x => Retry(x, backendUrl), n);
    assert Min(n, MaxReconnectAttempts - c.attempts) == 5;
    assert Ramp(0, 5) == [3000, 6000, 9000, 12000, 15000];
  }

  /** Cleanup cancels the retry the ref holds: firing that timer afterwards does nothing. */
  lemma CleanupCancelsRetry(c: Client, backendUrl: string, created: bool)
    requires c.timerRef.Some?
    ensures Fired(CleanedUp(c), c.timerRef.value, backendUrl, created) == CleanedUp(c)
  {
  }

  /** Nothing in `onclose` checks for teardown: the close that cleanup asks for, once it
      arrives, schedules a new retry as long as the counter is below 5. */
  lemma CloseAfterCleanupRetries(c: Client)
    requires c.attempts < MaxReconnectAttempts
    ensures |Closed(CleanedUp(c)).pending| == |CleanedUp(c).pending| + 1
    ensures Closed(CleanedUp(c)).timerRef == Some(c.nextTimer)
  {
  }

  /** The provider's state, field by field. */
  class WebSocketProvider {
    const backendUrl: string
    var user: Option<Id>
    var socket: Option<nat>
    var isConnected: bool
    var messages: seq<Message>
    var reconnectAttempts: nat
    var reconnectTimeout: Option<nat>
    var pendingTimers: seq<Timer>
    var transport: seq<TransportCall>
    var nextSocket: nat
    var nextTimer: nat

    function State(): Client
      reads this
    {
      Client(user, socket, isConnected, reconnectAttempts, reconnectTimeout, pendingTimers,
             messages, transport, nextSocket, nextTimer)
    }

    ghost predicate Valid()
      reads this
    {
      Inv(State())
    }

    /** The provider as first rendered: no user yet, no socket, nothing buffered. */
    constructor (backendUrl: string)
      ensures Valid() && State() == Initial && this.backendUrl == backendUrl
    {
      this.backendUrl := backendUrl;
      user := None;
      socket := None;
      isConnected := false;
      messages := [];
      reconnectAttempts := 0;
      reconnectTimeout := None;
      pendingTimers := [];
      transport := [];
      nextSocket := 0;
      nextTimer := 0;
    }

    method ConnectWebSocket(created: bool)
      requires Valid()
      modifies this
      ensures Valid() && State() == Connect(old(State()), backendUrl, created)
    {
      if user.None? {
        return;
      }
      var url := ChannelAddress(backendUrl, user.value);
      if !created {
        return;
      }
      var ws := nextSocket;
      nextSocket := nextSocket + 1;
      transport := transport + [OpenSocket(ws, url)];
      socket := Some(ws);
    }

    method OnOpen()
      requires Valid()
      modifies this
      ensures Valid() && State() == Opened(old(State()))
    {
      isConnected := true;
      reconnectAttempts := 0;
    }

    method OnClose()
      requires Valid()
      modifies this
      ensures Valid() && State() == Closed(old(State()))
    {
      isConnected := false;
      socket := None;
      if reconnectAttempts < MaxReconnectAttempts {
        reconnectAttempts := reconnectAttempts + 1;
        var id := nextTimer;
        nextTimer := nextTimer + 1;
        pendingTimers := pendingTimers + [Timer(id, ReconnectBaseDelay * reconnectAttempts)];
        reconnectTimeout := Some(id);
      }
    }

    /** `onerror` only logs. */
    method OnError()
      ensures State() == old(State())
    {
    }

    method HandleMessage(kind: string, message: Message)
      modifies this
      ensures State() == old(State()).(buffer := Dispatch(old(messages), Envelope(kind, message)))
    {
      if kind == "new_message" {
        messages := messages + [message];
      } else if kind == "user_online" {
      } else if kind == "user_offline" {
      } else {
      }
    }

    method OnMessage(payload: Payload)
      requires Valid()
      modifies this
      ensures Valid() && State() == Received(old(State()), payload)
    {
      match payload
      case Unparsable =>
      case Envelope(kind, message) => HandleMessage(kind, message);
    }

    /** The reconnect timer with this id fires (if it is still pending). */
    method OnRetryTimer(id: nat, created: bool)
      requires Valid()
      modifies this
      ensures Valid() && State() == Fired(old(State()), id, backendUrl, created)
    {
      if HasTimer(pendingTimers, id) {
        pendingTimers := WithoutTimer(pendingTimers, id);
        ConnectWebSocket(created);
      }
    }

    method Cleanup()
      requires Valid()
      modifies this
      ensures Valid() && State() == CleanedUp(old(State()))
    {
      if reconnectTimeout.Some? {
        pendingTimers := WithoutTimer(pendingTimers, reconnectTimeout.value);
      }
      if socket.Some? {
        transport := transport + [CloseSocket(socket.value)];
      }
    }

    method SendMessage(frame: string)
      requires Valid()
      modifies this
      ensures Valid() && State() == Sent(old(State()), frame)
    {
      if socket.Some? && isConnected {
        transport := transport + [SendText(socket.value, frame)];
      }
    }

    /** The effect re-run when the signed-in user changes. */
    method OnUserChange(newUser: Option<Id>, created: bool)
      requires Valid()
      modifies this
      ensures Valid() && State() == UserChanged(old(State()), newUser, backendUrl, created)
    {
      Cleanup();
      user := newUser;
      if newUser.Some? {
        ConnectWebSocket(created);
      }
    }

    /** `setMessages`, as the context exposes it to the chat windows. */
    method SetMessages(buffer: seq<Message>)
      modifies this`messages
      ensures State() == old(State()).(buffer := buffer)
    {
      messages := buffer;
    }
  }
}
