/** The WebSocket client of frontend/src/lib/api/websocket.ts.

    The socket.io connection is reduced to the two flags the client reads
    (`connected`, `connecting`); timers are reduced to the delay the client asks
    for; a handler is an identity, and invoking it is returned as a `Call` value
    instead of being performed. */
module WebSocket {
  import opened Common

  /** The socket.io socket: the address it was opened on and its two flags. */
  datatype Socket = Socket(url: string, connected: bool, connecting: bool)

  /** A handler registered through `on`, known by its identity. */
  datatype Handler = Handler(id: nat)

  /** `message.data`, of which only `data.message` is read. */
  datatype MessageData = MessageData(message: Option<string>)

  datatype Message = Message(kind: string, data: Option<MessageData>)

  /** What a handler is given: the whole message, raw socket data, or an `Error` with
      its message. */
  datatype Payload = WholeMessage(msg: Message) | RawData(data: string) | ErrorWith(message: string)

  /** A handler invocation the client performs. */
  datatype Call = Call(handler: Handler, payload: Payload)

  /** The six handler slots. */
  datatype Slot = GameUpdate | RoundComplete | GameComplete | ErrorSlot | ConnectSlot | DisconnectSlot

  datatype Status = Disconnected | Connecting | Connected | Reconnecting

  const MaxReconnectAttempts: nat := 5
  const ReconnectDelay: nat := 1000
  const DefaultUrl: string := "ws://localhost:8000"
  const MaxAttemptsMessage: string := "Max reconnection attempts reached"
  const DefaultErrorMessage: string := "WebSocket error"

  /** The event name `on` and `off` accept for each slot. */
  function SlotName(s: Slot): string {
    match s
    case GameUpdate => "game_update"
    case RoundComplete => "round_complete"
    case GameComplete => "game_complete"
    case ErrorSlot => "error"
    case ConnectSlot => "connect"
    case DisconnectSlot => "disconnect"
  }

  /** The `switch (event)` of `on` and `off`: unknown names select no slot. */
  function SlotOf(event: string): (r: Option<Slot>)
    ensures r.Some? ==> SlotName(r.value) == event
    ensures r.None? ==> forall s: Slot :: SlotName(s) != event
  {
    if event == "game_update" then Some(GameUpdate)
    else if event == "round_complete" then Some(RoundComplete)
    else if event == "game_complete" then Some(GameComplete)
    else if event == "error" then Some(ErrorSlot)
    else if event == "connect" then Some(ConnectSlot)
    else if event == "disconnect" then Some(DisconnectSlot)
    else None
  }

  /** Every slot is selected by its own name, and by no other slot's name. */
  lemma SlotNamesSelect(s: Slot, t: Slot)
    ensures SlotOf(SlotName(s)) == Some(s)
    ensures s != t ==> SlotName(s) != SlotName(t)
  {
  }

  function Pow2(k: nat): (r: nat)
    ensures r >= 1
  {
    if k == 0 then 1 else 2 * Pow2(k - 1)
  }

  /** `reconnectDelay * Math.pow(2, reconnectAttempts - 1)` for the k-th attempt. */
  function Delay(k: nat): nat
    requires k >= 1
  {
    ReconnectDelay * Pow2(k - 1)
  }

  /** The counter after `handleReconnect` and the delay it schedules, if any. */
  function ReconnectStep(attempts: nat): (nat, Option<nat>) {
    if attempts < MaxReconnectAttempts then (attempts + 1, Some(Delay(attempts + 1))) else (attempts, None)
  }

  /** The counter after `n` reconnect steps from `c`. */
  function AttemptsAfter(c: nat, n: nat): nat {
    if n == 0 then c else ReconnectStep(AttemptsAfter(c, n - 1)).0
  }

  /** The delays scheduled by `n` reconnect steps from `c`, in order. */
  function DelaysAfter(c: nat, n: nat): seq<nat> {
    if n == 0 then []
    else
      var step := ReconnectStep(AttemptsAfter(c, n - 1));
      DelaysAfter(c, n - 1) + (if step.1.Some? then [step.1.value] else [])
  }

  function Min(a: int, b: int): int {
    if a < b then a else b
  }

  /** From any counter within the bound, `n` failures leave the counter at
      min(c + n, 5) and schedule the retries c+1, …, 5, each waiting twice as
      long as the one before. */
  lemma {:induction false} ReconnectBackOff(c: nat, n: nat)
    requires c <= MaxReconnectAttempts
    ensures AttemptsAfter(c, n) == Min(c + n, MaxReconnectAttempts)
    ensures DelaysAfter(c, n) == seq(Min(n, MaxReconnectAttempts - c), i requires 0 <= i => Delay(c + i + 1))
  {
    if n > 0 {
      ReconnectBackOff(c, n - 1);
      var prev := seq(Min(n - 1, MaxReconnectAttempts - c), i requires 0 <= i => Delay(c + i + 1));
      var now := seq(Min(n, MaxReconnectAttempts - c), i requires 0 <= i => Delay(c + i + 1));
      if c + n - 1 < MaxReconnectAttempts {
        forall j | 0 <= j < |now| ensures now[j] == (prev + [Delay(c + n)])[j] {
        }
        assert now == prev + [Delay(c + n)];
      } else {
        forall j | 0 <= j < |now| ensures now[j] == prev[j] {
        }
        assert now == prev;
      }
    }
  }

  /** From a fresh counter the retries wait 1000, 2000, 4000, 8000 and 16000 ms,
      and every later failure schedules nothing. */
  lemma BackOffFromZero(n: nat)
    ensures AttemptsAfter(0, n) <= MaxReconnectAttempts
    ensures DelaysAfter(0, n) == [1000, 2000, 4000, 8000, 16000][..Min(n, 5)]
  {
    ReconnectBackOff(0, n);
    var got := DelaysAfter(0, n);
    var want := [1000, 2000, 4000, 8000, 16000][..Min(n, MaxReconnectAttempts)];
    forall i | 0 <= i < |got|
      ensures got[i] == want[i]
    {
      DelayOfAttempt(i);
    }
  }

  lemma DelayOfAttempt(i: nat)
    requires i < MaxReconnectAttempts
    ensures Delay(i + 1) == [1000, 2000, 4000, 8000, 16000][i]
  {
    if i == 4 {
      assert Pow2(4) == 16;
    } else if i == 3 {
      assert Pow2(3) == 8;
    }
  }

  /** Each scheduled retry waits twice as long as the previous one. */
  lemma DelayDoubles(k: nat)
    requires k >= 1
    ensures Delay(k + 1) == 2 * Delay(k)
    ensures Delay(1) == ReconnectDelay
  {
  }

  /** `getStatus` on the socket and the counter. */
  function StatusOf(socket: Option<Socket>, attempts: nat): (r: Status)
    ensures r != Reconnecting
    ensures socket.None? ==> r == Disconnected
    ensures r == Connected <==> socket.Some? && socket.value.connected
    ensures r == Connecting <==> socket.Some? && !socket.value.connected && (socket.value.connecting || attempts > 0)
  {
    if socket.None? then Disconnected
    else if socket.value.connected then Connected
    else if socket.value.connecting || attempts > 0 then Connecting
    else Disconnected
  }

  class WebSocketClient {
    var socket: Option<Socket>
    const url: string
    var reconnectAttempts: nat
    var onGameUpdate: Option<Handler>
    var onRoundComplete: Option<Handler>
    var onGameComplete: Option<Handler>
    var onError: Option<Handler>
    var onConnect: Option<Handler>
    var onDisconnect: Option<Handler>

    /** The counter never exceeds the bound. */
    predicate Valid()
      reads this
    {
      reconnectAttempts <= MaxReconnectAttempts
    }

    /** The handler in a slot. */
    function HandlerIn(s: Slot): Option<Handler>
      reads this
    {
      match s
      case GameUpdate => onGameUpdate
      case RoundComplete => onRoundComplete
      case GameComplete => onGameComplete
      case ErrorSlot => onError
      case ConnectSlot => onConnect
      case DisconnectSlot => onDisconnect
    }

    /** `url || process.env.NEXT_PUBLIC_WS_URL || 'ws://localhost:8000'`. */
    constructor (url: Option<string>, envUrl: Option<string>)
      ensures this.url == OrElse(url, OrElse(envUrl, DefaultUrl))
      ensures socket.None? && reconnectAttempts == 0 && Valid()
      ensures forall s :: HandlerIn(s).None?
    {
      this.url := OrElse(url, OrElse(envUrl, DefaultUrl));
      socket := None;
      reconnectAttempts := 0;
      onGameUpdate, onRoundComplete, onGameComplete := None, None, None;
      onError, onConnect, onDisconnect := None, None, None;
    }

    /** `on(event, handler)`: sets the one slot the name selects, or nothing. */
    method On(event: string, h: Handler)
      requires Valid()
      modifies this
      ensures Valid()
      ensures SlotOf(event).Some? ==> HandlerIn(SlotOf(event).value) == Some(h)
      ensures forall s :: Some(s) != SlotOf(event) ==> HandlerIn(s) == old(HandlerIn(s))
      ensures socket == old(socket) && reconnectAttempts == old(reconnectAttempts)
    {
      match SlotOf(event)
      case None =>
      case Some(GameUpdate) => onGameUpdate := Some(h);
      case Some(RoundComplete) => onRoundComplete := Some(h);
      case Some(GameComplete) => onGameComplete := Some(h);
      case Some(ErrorSlot) => onError := Some(h);
      case Some(ConnectSlot) => onConnect := Some(h);
      case Some(DisconnectSlot) => onDisconnect := Some(h);
    }

    /** `off(event)`: clears the one slot the name selects, or nothing. */
    method Off(event: string)
      requires Valid()
      modifies this
      ensures Valid()
      ensures SlotOf(event).Some? ==> HandlerIn(SlotOf(event).value).None?
      ensures forall s :: Some(s) != SlotOf(event) ==> HandlerIn(s) == old(HandlerIn(s))
      ensures socket == old(socket) && reconnectAttempts == old(reconnectAttempts)
    {
      match SlotOf(event)
      case None =>
      case Some(GameUpdate) => onGameUpdate := None;
      case Some(RoundComplete) => onRoundComplete := None;
      case Some(GameComplete) => onGameComplete := None;
      case Some(ErrorSlot) => onError := None;
      case Some(ConnectSlot) => onConnect := None;
      case Some(DisconnectSlot) => onDisconnect := None;
    }

    /** `handleReconnect`: below the bound the counter grows by one and a retry is
        scheduled after the returned delay; at the bound nothing is scheduled and
        the error handler, if any, is told. */
    method HandleReconnect() returns (delay: Option<nat>, call: Option<Call>)
      requires Valid()
      modifies this
      ensures Valid()
      ensures (reconnectAttempts, delay) == ReconnectStep(old(reconnectAttempts))
      ensures call == (if old(reconnectAttempts) < MaxReconnectAttempts || onError.None? then None
                       else Some(Call(onError.value, ErrorWith(MaxAttemptsMessage))))
      ensures socket == old(socket) && forall s :: HandlerIn(s) == old(HandlerIn(s))
    {
      if reconnectAttempts < MaxReconnectAttempts {
        reconnectAttempts := reconnectAttempts + 1;
        delay := Some(ReconnectDelay * Pow2(reconnectAttempts - 1));
        call := None;
      } else {
        delay := None;
        call := if onError.Some? then Some(Call(onError.value, ErrorWith(MaxAttemptsMessage))) else None;
      }
    }

    /** The scheduled retry firing: `if (this.socket) this.socket.connect()`. */
    method RetryFires()
      requires Valid()
      modifies this
      ensures Valid()
      ensures socket == if old(socket).Some? then Some(old(socket).value.(connecting := true)) else None
      ensures reconnectAttempts == old(reconnectAttempts) && forall s :: HandlerIn(s) == old(HandlerIn(s))
    {
      if socket.Some? {
        socket := Some(socket.value.(connecting := true));
      }
    }

    /** The socket's 'connect' event: the socket is connected and the counter reset. */
    method OnConnected()
      requires Valid()
      modifies this
      ensures Valid()
      ensures socket == if old(socket).Some? then Some(old(socket).value.(connected := true, connecting := false)) else None
      ensures reconnectAttempts == 0 && forall s :: HandlerIn(s) == old(HandlerIn(s))
    {
      if socket.Some? {
        socket := Some(socket.value.(connected := true, connecting := false));
      }
      reconnectAttempts := 0;
    }

    /** The socket's 'connect_error' event. */
    method OnConnectError() returns (delay: Option<nat>, call: Option<Call>)
      requires Valid()
      modifies this
      ensures Valid()
      ensures socket == if old(socket).Some? then Some(old(socket).value.(connecting := false)) else None
      ensures (reconnectAttempts, delay) == ReconnectStep(old(reconnectAttempts))
      ensures call == (if old(reconnectAttempts) < MaxReconnectAttempts || onError.None? then None
                       else Some(Call(onError.value, ErrorWith(MaxAttemptsMessage))))
      ensures forall s :: HandlerIn(s) == old(HandlerIn(s))
    {
      if socket.Some? {
        socket := Some(socket.value.(connecting := false));
      }
      delay, call := HandleReconnect();
    }

    /** The socket's 'disconnect' event: a server-initiated disconnect drops the
        socket and schedules nothing; any other reason goes through the back-off. */
    method OnDisconnect(reason: string) returns (delay: Option<nat>, call: Option<Call>)
      requires Valid()
      modifies this
      ensures Valid()
      ensures reason == "io server disconnect" ==>
                socket.None? && reconnectAttempts == old(reconnectAttempts) && delay.None? && call.None?
      ensures reason != "io server disconnect" ==>
                socket == (if old(socket).Some? then Some(old(socket).value.(connected := false, connecting := false)) else None)
                && (reconnectAttempts, delay) == ReconnectStep(old(reconnectAttempts))
                && call == (if old(reconnectAttempts) < MaxReconnectAttempts || onError.None? then None
                            else Some(Call(onError.value, ErrorWith(MaxAttemptsMessage))))
      ensures forall s :: HandlerIn(s) == old(HandlerIn(s))
    {
      if socket.Some? {
        socket := Some(socket.value.(connected := false, connecting := false));
      }
      if reason == "io server disconnect" {
        socket := None;
        delay, call := None, None;
      } else {
        delay, call := HandleReconnect();
      }
    }

    /** `disconnect()`: drops the socket and resets the counter. */
    method Disconnect()
      requires Valid()
      modifies this
      ensures Valid()
      ensures socket.None? && reconnectAttempts == 0
      ensures forall s :: HandlerIn(s) == old(HandlerIn(s))
    {
      socket := None;
      reconnectAttempts := 0;
    }

    /** `connect(sessionId)`: a connected socket is disconnected first (resetting
        the counter); a new socket is then opened on `url + sessionId`. */
    method Connect(sessionId: string)
      requires Valid()
      modifies this
      ensures Valid()
      ensures socket == Some(Socket(url + sessionId, false, true))
      ensures reconnectAttempts == if old(socket).Some? && old(socket).value.connected then 0 else old(reconnectAttempts)
      ensures forall s :: HandlerIn(s) == old(HandlerIn(s))
    {
      if socket.Some? && socket.value.connected {
        Disconnect();
      }
      socket := Some(Socket(url + sessionId, false, true));
    }

    /** `isConnected()`. */
    function IsConnected(): (r: bool)
      reads this
      ensures r <==> GetStatus() == Connected
    {
      socket.Some? && socket.value.connected
    }

    /** `send(event, data)`: emitted only on a connected socket. */
    method Send(event: string, data: string) returns (emitted: Option<(string, string)>)
      ensures emitted.Some? <==> IsConnected()
      ensures emitted.Some? ==> emitted.value == (event, data)
    {
      if socket.Some? && socket.value.connected {
        emitted := Some((event, data));
      } else {
        emitted := None;
      }
    }

    /** `handleMessage`: the one handler that matches the message type, if set, is
        called; an error message carries `data.message`, or a default text. The
        dispatch runs inside `try`: when the called handler throws (`thrown` is
        the message of what it throws), the `catch` passes that error on to the
        error handler, if one is set, as a second call. */
    method HandleMessage(msg: Message, thrown: Option<string>) returns (calls: seq<Call>)
      ensures |calls| <= 2
      ensures |calls| > 0 <==> msg.kind in {"game_update", "round_complete", "game_complete", "error"}
                                && HandlerIn(SlotOf(msg.kind).value).Some?
      ensures |calls| > 0 ==> calls[0].handler == HandlerIn(SlotOf(msg.kind).value).value
      ensures |calls| > 0 && msg.kind != "error" ==> calls[0].payload == WholeMessage(msg)
      ensures |calls| > 0 && msg.kind == "error" ==>
                calls[0].payload == ErrorWith(OrElse(if msg.data.Some? then msg.data.value.message else None,
                                                     DefaultErrorMessage))
      ensures |calls| == 2 <==> |calls| > 0 && thrown.Some? && onError.Some?
      ensures |calls| == 2 ==> calls[1] == Call(onError.value, ErrorWith(thrown.value))
    {
      calls := [];
      if msg.kind == "game_update" {
        if onGameUpdate.Some? { calls := [Call(onGameUpdate.value, WholeMessage(msg))]; }
      } else if msg.kind == "round_complete" {
        if onRoundComplete.Some? { calls := [Call(onRoundComplete.value, WholeMessage(msg))]; }
      } else if msg.kind == "game_complete" {
        if onGameComplete.Some? { calls := [Call(onGameComplete.value, WholeMessage(msg))]; }
      } else if msg.kind == "error" {
        if onError.Some? {
          var text := if msg.data.Some? then msg.data.value.message else None;
          calls := [Call(onError.value, ErrorWith(OrElse(text, DefaultErrorMessage)))];
        }
      }
      if |calls| > 0 && thrown.Some? && onError.Some? {
        calls := calls + [Call(onError.value, ErrorWith(thrown.value))];
      }
    }

    /** The named socket events of `setupEventHandlers`: the data goes unchanged to
        the matching handler, if one is set. */
    method ForwardSocketEvent(event: string, data: string) returns (call: Option<Call>)
      ensures call.Some? <==> event in {"game_update", "round_complete", "game_complete", "error"}
                              && HandlerIn(SlotOf(event).value).Some?
      ensures call.Some? ==> call.value == Call(HandlerIn(SlotOf(event).value).value, RawData(data))
    {
      call := None;
      if event in {"game_update", "round_complete", "game_complete", "error"} {
        var h := HandlerIn(SlotOf(event).value);
        if h.Some? {
          call := Some(Call(h.value, RawData(data)));
        }
      }
    }

    /** `getStatus()`. */
    function GetStatus(): Status
      reads this
    {
      StatusOf(socket, reconnectAttempts)
    }
  }

  /** Five failed connection attempts schedule retries of 1, 2, 4, 8 and 16
      seconds; the sixth schedules nothing and reports the limit to the error
      handler; a successful connection resets the counter. */
  method BackOffScenario(h: Handler)
  {
    var client := new WebSocketClient(None, None);
    assert client.url == DefaultUrl;
    client.On("error", h);
    client.Connect("s1");
    assert client.GetStatus() == Connecting;
    var d1, c1 := client.OnConnectError();
    var d2, c2 := client.OnConnectError();
    var d3, c3 := client.OnConnectError();
    var d4, c4 := client.OnConnectError();
    var d5, c5 := client.OnConnectError();
    assert [d1, d2, d3, d4, d5] == [Some(1000), Some(2000), Some(4000), Some(8000), Some(16000)];
    assert client.reconnectAttempts == 5;
    var d6, c6 := client.OnConnectError();
    assert d6.None? && c6 == Some(Call(h, ErrorWith(MaxAttemptsMessage)));
    assert client.GetStatus() == Connecting;
    client.OnConnected();
    assert client.reconnectAttempts == 0 && client.GetStatus() == Connected;
    var d7, c7 := client.OnDisconnect("io server disconnect");
    assert d7.None? && client.GetStatus() == Disconnected;
  }
}
