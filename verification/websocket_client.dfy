/** `ChatWebSocketClient`: the connection to the chat server. The socket is the flag
    `isOpen` plus the frames it has transmitted (`sent`); what the single
    `scheduledExecutor` field holds is `executor`; library callbacks and timer firings
    are methods that take the current time `now` as a parameter. */
module WebSocketClient {
  import opened KotlinText
  import opened JsonUtil
  import opened PluginConfig
  import opened ResponsePool

  /** Which message handler (a Kotlin `(String) -> Unit`) is installed. */
  type HandlerId = nat

  /** The job the `scheduledExecutor` field currently runs. */
  datatype Task = ResponseCleanup | HeartbeatCheck | ReconnectAfter(delay: int)

  /** The frame `sendAuthentication` transmits. */
  function AuthMessage(token: string, now: int): Envelope
  {
    map["action" := JStr("auth"), "token" := JStr(token), "timestamp" := JNum(now)]
  }

  /** The authentication frame carries exactly the action `auth`, the token and the
      time it was sent. */
  lemma AuthMessageFields(token: string, now: int)
    ensures GetString(AuthMessage(token, now), "action", "") == "auth"
    ensures GetString(AuthMessage(token, now), "token", "") == token
    ensures AuthMessage(token, now).Keys == {"action", "token", "timestamp"}
    ensures AuthMessage(token, now)["timestamp"] == JNum(now)
  {
  }

  /** The frame `sendHeartbeat` transmits. */
  function PingMessage(now: int): Envelope
  {
    map["action" := JStr("ping"), "timestamp" := JNum(now)]
  }

  /** The ping frame carries exactly the action `ping` and the time it was sent. */
  lemma PingMessageFields(now: int)
    ensures GetString(PingMessage(now), "action", "") == "ping"
    ensures PingMessage(now).Keys == {"action", "timestamp"}
    ensures PingMessage(now)["timestamp"] == JNum(now)
  {
  }

  /** Where `onMessage` sends a parsed message. */
  datatype Route = AuthAccepted | AuthRejected | Pong | Response(echo: string) | Forward

  /** The routing order of `onMessage`: the authentication gate, then heartbeat
      responses, then responses to requests (any message with an `echo`, even an empty
      one), then the message handler. */
  function RouteOf(json: Envelope, authenticated: bool): (r: Route)
    ensures !authenticated ==> (r == AuthAccepted || r == AuthRejected)
    ensures r == AuthAccepted <==>
      !authenticated && GetOptString(json, "action") == Some("auth") && GetOptString(json, "status") == Some("ok")
    ensures authenticated && GetOptString(json, "action") == Some("pong") ==> r == Pong
    ensures r == Pong ==> authenticated && GetOptString(json, "action") == Some("pong")
    ensures r.Response? <==>
      authenticated && GetOptString(json, "action") != Some("pong") && GetOptString(json, "echo").Some?
    ensures r.Response? ==> GetOptString(json, "echo") == Some(r.echo)
    ensures r == Forward <==>
      authenticated && GetOptString(json, "action") != Some("pong") && GetOptString(json, "echo") == None
  {
    if !authenticated then
      if GetOptString(json, "action") == Some("auth") && GetOptString(json, "status") == Some("ok") then AuthAccepted
      else AuthRejected
    else if GetOptString(json, "action") == Some("pong") then Pong
    else match GetOptString(json, "echo")
      case Some(echo) => Response(echo)
      case None => Forward
  }

  /** What `flushMessageQueue` transmits and what it leaves queued, when the
      `failAt`-th send of the flush (counting from 0) throws, or none does. */
  function Flushed(q: seq<Envelope>, failAt: Option<nat>): (seq<Envelope>, seq<Envelope>)
  {
    if failAt.Some? && failAt.value < |q| then
      var k := failAt.value;
      (q[..k], q[k + 1..] + [q[k]])
    else (q, [])
  }

  /** A flush sends a prefix of the queue in order and loses nothing: what it sends and
      what it keeps are together the old queue, and a failed frame waits at the tail. */
  lemma FlushedShape(q: seq<Envelope>, failAt: Option<nat>)
    ensures Flushed(q, failAt).0 <= q
    ensures multiset(Flushed(q, failAt).0) + multiset(Flushed(q, failAt).1) == multiset(q)
    ensures |Flushed(q, failAt).0| + |Flushed(q, failAt).1| == |q|
    ensures failAt.None? ==> Flushed(q, failAt) == (q, [])
    ensures Flushed(q, failAt).1 != [] ==>
      failAt == Some(|Flushed(q, failAt).0|) && Flushed(q, failAt).1[|Flushed(q, failAt).1| - 1] == q[|Flushed(q, failAt).0|]
  {
    if failAt.Some? && failAt.value < |q| {
      var k := failAt.value;
      assert q == q[..k] + [q[k]] + q[k + 1..];
    }
  }

  /** What the heartbeat check does on one tick. */
  datatype HeartbeatAction = Idle | Reconnect | Ping

  /** The body of the heartbeat-timeout check: nothing unless open and authenticated;
      a reconnect once no pong has come for longer than the timeout; otherwise a ping
      once the last one is older than the interval. */
  function HeartbeatDecision(isOpen: bool, authenticated: bool, now: int, lastPongTime: int, lastHeartbeatTime: int,
                             config: WebSocketConfig): (r: HeartbeatAction)
    ensures !(isOpen && authenticated) ==> r == Idle
    ensures r == Reconnect <==> isOpen && authenticated && now - lastPongTime > config.heartbeatTimeout
    ensures r == Ping <==> isOpen && authenticated && now - lastPongTime <= config.heartbeatTimeout
                            && now - lastHeartbeatTime > config.heartbeatInterval
  {
    if isOpen && authenticated then
      if now - lastPongTime > config.heartbeatTimeout then Reconnect
      else if now - lastHeartbeatTime > config.heartbeatInterval then Ping
      else Idle
    else Idle
  }

  class ChatWebSocketClient {
    const config: WebSocketConfig
    /** The process-wide `ResponsePool`. */
    const pool: Pool

    /** The library's `isOpen`. */
    var isOpen: bool
    /** Every frame the socket has transmitted, in order. */
    var sent: seq<Envelope>
    /** The close codes this client asked the socket to close with. */
    var closeCodes: seq<int>
    var messageQueue: seq<Envelope>
    var reconnectAttempts: nat
    var executor: Option<Task>
    var isConnecting: bool
    var messageHandler: Option<HandlerId>
    /** Every message passed to a handler, with the handler it went to. */
    var handled: seq<(HandlerId, string)>
    var lastHeartbeatTime: int
    var lastPongTime: int
    var isAuthenticated: bool

    /** Reconnect attempts never pass the configured maximum, and a scheduled reconnect
        waits the reconnect interval times the attempt number. */
    ghost predicate Valid()
      reads this
    {
      && (reconnectAttempts == 0 || reconnectAttempts <= config.maxReconnectAttempts)
      && (executor.Some? && executor.value.ReconnectAfter? ==>
            executor.value.delay == config.reconnectInterval * reconnectAttempts)
    }

    constructor(config: WebSocketConfig, pool: Pool)
      ensures Valid()
      ensures this.config == config && this.pool == pool
      ensures !isOpen && sent == [] && closeCodes == [] && messageQueue == [] && handled == []
      ensures reconnectAttempts == 0 && executor == None && !isConnecting && messageHandler == None
      ensures lastHeartbeatTime == 0 && lastPongTime == 0 && !isAuthenticated
    {
      this.config := config;
      this.pool := pool;
      isOpen := false;
      sent := [];
      closeCodes := [];
      messageQueue := [];
      reconnectAttempts := 0;
      executor := None;
      isConnecting := false;
      messageHandler := None;
      handled := [];
      lastHeartbeatTime := 0;
      lastPongTime := 0;
      isAuthenticated := false;
    }

    /** `setMessageHandler`. */
    method SetMessageHandler(handler: HandlerId)
      requires Valid()
      modifies this`messageHandler
      ensures Valid()
      ensures messageHandler == Some(handler)
    {
      messageHandler := Some(handler);
    }

    /** The library's `send`, which throws (and so transmits nothing) on a socket
        that is not open. */
    method Transmit(frame: Envelope)
      modifies this`sent
      ensures sent == old(sent) + (if isOpen then [frame] else [])
    {
      if isOpen {
        sent := sent + [frame];
      }
    }

    /** `onOpen`: the counters and flags are reset, both heartbeat clocks start at
        `now`, exactly one authentication frame goes out, and the heartbeat check is
        scheduled. The response cleanup is scheduled too, but the heartbeat check's
        `stopHeartbeat` shuts its executor down straight away. */
    method OnOpen(now: int)
      requires Valid()
      modifies this
      ensures Valid()
      ensures isOpen && reconnectAttempts == 0 && !isConnecting && !isAuthenticated
      ensures lastHeartbeatTime == now && lastPongTime == now
      ensures sent == old(sent) + [AuthMessage(config.token, now)]
      ensures executor == Some(HeartbeatCheck)
      ensures messageQueue == old(messageQueue) && handled == old(handled) && closeCodes == old(closeCodes)
      ensures messageHandler == old(messageHandler)
    {
      isOpen := true;
      reconnectAttempts := 0;
      isConnecting := false;
      isAuthenticated := false;
      lastHeartbeatTime := now;
      lastPongTime := now;
      Transmit(AuthMessage(config.token, now));
      executor := Some(ResponseCleanup);
      StartHeartbeatTimeoutCheck();
    }

    /** `stopHeartbeat`: the executor in the field is shut down and forgotten. */
    method StopHeartbeat()
      requires Valid()
      modifies this`executor
      ensures Valid()
      ensures executor == None
    {
      executor := None;
    }

    /** `startHeartbeatTimeoutCheck`. */
    method StartHeartbeatTimeoutCheck()
      requires Valid()
      modifies this`executor
      ensures Valid()
      ensures executor == Some(HeartbeatCheck)
    {
      StopHeartbeat();
      executor := Some(HeartbeatCheck);
    }

    /** `handleAuthenticationResponse`: an `auth` message with status `ok` authenticates. */
    method HandleAuthenticationResponse(json: Envelope) returns (ok: bool)
      requires Valid()
      modifies this`isAuthenticated
      ensures Valid()
      ensures ok <==> GetOptString(json, "action") == Some("auth") && GetOptString(json, "status") == Some("ok")
      ensures isAuthenticated == (ok || old(isAuthenticated))
    {
      ok := GetOptString(json, "action") == Some("auth") && GetOptString(json, "status") == Some("ok");
      if ok {
        isAuthenticated := true;
      }
    }

    /** `handleHeartbeatResponse`: a `pong` moves the pong clock to `now`. */
    method HandleHeartbeatResponse(json: Envelope, now: int) returns (pong: bool)
      requires Valid()
      modifies this`lastPongTime
      ensures Valid()
      ensures pong <==> GetOptString(json, "action") == Some("pong")
      ensures lastPongTime == if pong then now else old(lastPongTime)
    {
      pong := GetOptString(json, "action") == Some("pong");
      if pong {
        lastPongTime := now;
      }
    }

    /** `onMessage`. A message that does not parse changes nothing. Before
        authentication only an `auth`/`ok` answer is accepted: it authenticates and
        flushes the queue; anything else closes the socket with 1008 and goes nowhere.
        After authentication a `pong` only moves the pong clock, a message with an
        `echo` completes the matching request in the pool, and any other message is
        passed, as text, to the installed handler. `failAt` says which send of the
        flush throws, if any. */
    method OnMessage(message: string, parse: string -> ParseResult, now: int, failAt: Option<nat>)
      requires Valid() && pool.Valid()
      modifies this`isAuthenticated, this`sent, this`messageQueue, this`isOpen, this`closeCodes,
               this`lastPongTime, this`handled, pool
      ensures Valid() && pool.Valid()
      ensures ParseObject(message, parse).None? ==>
        unchanged(this) && unchanged(pool)
      ensures ParseObject(message, parse).Some? ==>
        var json := ParseObject(message, parse).value;
        match RouteOf(json, old(isAuthenticated))
        case AuthAccepted =>
          && isAuthenticated && handled == old(handled) && unchanged(pool)
          && (old(isOpen) ==> sent == old(sent) + Flushed(old(messageQueue), failAt).0
                              && messageQueue == Flushed(old(messageQueue), failAt).1)
          && (!old(isOpen) ==> sent == old(sent) && messageQueue == old(messageQueue))
          && isOpen == old(isOpen) && closeCodes == old(closeCodes) && lastPongTime == old(lastPongTime)
        case AuthRejected =>
          && !isAuthenticated && !isOpen && closeCodes == old(closeCodes) + [1008]
          && sent == old(sent) && messageQueue == old(messageQueue) && handled == old(handled) && unchanged(pool)
          && lastPongTime == old(lastPongTime)
        case Pong =>
          && lastPongTime == now && isAuthenticated == old(isAuthenticated)
          && isOpen == old(isOpen) && sent == old(sent) && messageQueue == old(messageQueue)
          && closeCodes == old(closeCodes) && handled == old(handled) && unchanged(pool)
        case Response(echo) =>
          && pool.responseMap == old(pool.responseMap) - {echo}
          && pool.responseTimeMap == old(pool.responseTimeMap) - {echo}
          && (echo in old(pool.responseMap) ==>
                pool.waiters == old(pool.waiters)[old(pool.responseMap)[echo] := Completed(json)])
          && (echo !in old(pool.responseMap) ==> pool.waiters == old(pool.waiters))
          && pool.nextTicket == old(pool.nextTicket) && isAuthenticated == old(isAuthenticated)
          && isOpen == old(isOpen) && sent == old(sent) && messageQueue == old(messageQueue)
          && closeCodes == old(closeCodes) && handled == old(handled) && lastPongTime == old(lastPongTime)
        case Forward =>
          && handled == old(handled) + (if messageHandler.Some? then [(messageHandler.value, message)] else [])
          && isAuthenticated == old(isAuthenticated)
          && isOpen == old(isOpen) && sent == old(sent) && messageQueue == old(messageQueue)
          && closeCodes == old(closeCodes) && lastPongTime == old(lastPongTime) && unchanged(pool)
    {
      var parsed := ParseObject(message, parse);
      if parsed.None? {
        return;
      }
      var json := parsed.value;
      if !isAuthenticated {
        var authResult := HandleAuthenticationResponse(json);
        if authResult {
          FlushMessageQueue(failAt);
          return;
        } else {
          CloseConnection(1008);
          return;
        }
      }
      var pong := HandleHeartbeatResponse(json, now);
      if pong {
        return;
      }
      var echo := GetOptString(json, "echo");
      if echo.Some? {
        pool.PutResponse(echo.value, json);
        return;
      }
      if messageHandler.Some? {
        handled := handled + [(messageHandler.value, message)];
      }
    }

    /** `onClose`: the heartbeat stops, and a reconnect is scheduled only for an
        abnormal close (`code != 1000`) that this side did not start. `closing` is the
        library's `isClosing` at the time of the callback. */
    method OnClose(code: int, closing: bool)
      requires Valid()
      modifies this`isOpen, this`executor, this`reconnectAttempts
      ensures Valid()
      ensures !isOpen
      ensures (code == 1000 || closing) ==> executor == None && reconnectAttempts == old(reconnectAttempts)
      ensures code != 1000 && !closing && !old(isConnecting) && old(reconnectAttempts) < config.maxReconnectAttempts ==>
        reconnectAttempts == old(reconnectAttempts) + 1
        && executor == Some(ReconnectAfter(config.reconnectInterval * reconnectAttempts))
      ensures code != 1000 && !closing && (old(isConnecting) || old(reconnectAttempts) >= config.maxReconnectAttempts) ==>
        executor == None && reconnectAttempts == old(reconnectAttempts)
    {
      isOpen := false;
      StopHeartbeat();
      if code != 1000 && !closing {
        ScheduleReconnect();
      }
    }

    /** `sendDict`: an open socket transmits the frame at once; otherwise the frame
        joins the tail of the queue and nothing is transmitted. */
    method SendDict(frame: Envelope) returns (r: bool)
      requires Valid()
      modifies this`sent, this`messageQueue
      ensures Valid()
      ensures r == isOpen
      ensures r ==> sent == old(sent) + [frame] && messageQueue == old(messageQueue)
      ensures !r ==> sent == old(sent) && messageQueue == old(messageQueue) + [frame]
    {
      if isOpen {
        Transmit(frame);
        r := true;
      } else {
        messageQueue := messageQueue + [frame];
        r := false;
      }
    }

    /** `isConnected`. */
    method IsConnected() returns (r: bool)
      ensures r == isOpen
    {
      r := isOpen;
    }

    /** `getQueueSize`. */
    method GetQueueSize() returns (n: nat)
      ensures n == |messageQueue|
    {
      n := |messageQueue|;
    }

    /** `closeConnection(code, reason)`: the socket is asked to close with `code`. */
    method CloseConnection(code: int)
      requires Valid()
      modifies this`isOpen, this`closeCodes
      ensures Valid()
      ensures !isOpen && closeCodes == old(closeCodes) + [code]
    {
      isOpen := false;
      closeCodes := closeCodes + [code];
    }

    /** `safeClose`: a normal close (1000), then the heartbeat stops. */
    method SafeClose()
      requires Valid()
      modifies this`isOpen, this`closeCodes, this`executor
      ensures Valid()
      ensures !isOpen && closeCodes == old(closeCodes) + [1000] && executor == None
    {
      CloseConnection(1000);
      StopHeartbeat();
    }

    /** `flushMessageQueue`: while the socket is open, the queue is sent from its head;
        when a send throws, that frame goes back to the tail and the flush stops. */
    method FlushMessageQueue(failAt: Option<nat>)
      requires Valid()
      modifies this`sent, this`messageQueue
      ensures Valid()
      ensures isOpen ==> sent == old(sent) + Flushed(old(messageQueue), failAt).0
                         && messageQueue == Flushed(old(messageQueue), failAt).1
      ensures !isOpen ==> sent == old(sent) && messageQueue == old(messageQueue)
    {
      if !isOpen {
        return;
      }
      // nothing in the loop closes the socket, so it works on copies of the queue and
      // of the transmitted frames, stored back once the loop stops
      ghost var q := messageQueue;
      var queue := messageQueue;
      var out := sent;
      var sentCount := 0;
      while queue != []
        invariant 0 <= sentCount <= |q|
        invariant failAt.None? || failAt.value >= sentCount
        invariant out == sent + q[..sentCount]
        invariant queue == q[sentCount..]
        decreases |queue|
      {
        var message := queue[0];
        queue := queue[1..];
        if failAt == Some(sentCount) {
          queue := queue + [message];
          assert Flushed(q, failAt) == (q[..sentCount], queue);
          break;
        }
        out := out + [message];
        assert q[..sentCount + 1] == q[..sentCount] + [message];
        sentCount := sentCount + 1;
      }
      assert q[..|q|] == q;
      assert queue == [] ==> Flushed(q, failAt) == (q, []);
      sent := out;
      messageQueue := queue;
    }

    /** `scheduleReconnect`: nothing while a reconnect runs or once the attempts reach
        the maximum; otherwise one more attempt, scheduled after the reconnect interval
        times the new attempt number (a linear back-off). */
    method ScheduleReconnect()
      requires Valid()
      modifies this`reconnectAttempts, this`executor
      ensures Valid()
      ensures (old(isConnecting) || old(reconnectAttempts) >= config.maxReconnectAttempts) ==>
        reconnectAttempts == old(reconnectAttempts) && executor == old(executor)
      ensures !(old(isConnecting) || old(reconnectAttempts) >= config.maxReconnectAttempts) ==>
        reconnectAttempts == old(reconnectAttempts) + 1
        && executor == Some(ReconnectAfter(config.reconnectInterval * reconnectAttempts))
    {
      if isConnecting || reconnectAttempts >= config.maxReconnectAttempts {
        return;
      }
      reconnectAttempts := reconnectAttempts + 1;
      var delay := config.reconnectInterval * reconnectAttempts;
      executor := Some(ReconnectAfter(delay));
    }

    /** The scheduled reconnect task: it marks the client as connecting and calls the
        library's `reconnect`; when that throws, the mark is cleared and another
        reconnect is scheduled. A reconnect that does not throw reports back later
        through `OnOpen` or `OnClose`. */
    method FireReconnect(reconnectThrows: bool)
      requires Valid()
      modifies this`isConnecting, this`reconnectAttempts, this`executor
      ensures Valid()
      ensures isConnecting == !reconnectThrows
      ensures !reconnectThrows ==> reconnectAttempts == old(reconnectAttempts) && executor == old(executor)
      ensures reconnectThrows && old(reconnectAttempts) < config.maxReconnectAttempts ==>
        reconnectAttempts == old(reconnectAttempts) + 1
        && executor == Some(ReconnectAfter(config.reconnectInterval * reconnectAttempts))
      ensures reconnectThrows && old(reconnectAttempts) >= config.maxReconnectAttempts ==>
        reconnectAttempts == old(reconnectAttempts) && executor == old(executor)
    {
      isConnecting := true;
      if reconnectThrows {
        isConnecting := false;
        ScheduleReconnect();
      }
    }

    /** `sendHeartbeat`: nothing before authentication; otherwise a ping, and the
        heartbeat clock moves to `now` only if the ping went out. */
    method SendHeartbeat(now: int)
      requires Valid()
      modifies this`sent, this`lastHeartbeatTime
      ensures Valid()
      ensures isAuthenticated && isOpen ==> sent == old(sent) + [PingMessage(now)] && lastHeartbeatTime == now
      ensures !(isAuthenticated && isOpen) ==> sent == old(sent) && lastHeartbeatTime == old(lastHeartbeatTime)
    {
      if !isAuthenticated {
        return;
      }
      if isOpen {
        Transmit(PingMessage(now));
        lastHeartbeatTime := now;
      }
    }

    /** One tick of the heartbeat-timeout check, as `HeartbeatDecision` directs. */
    method HeartbeatTick(now: int)
      requires Valid()
      modifies this`sent, this`lastHeartbeatTime, this`reconnectAttempts, this`executor
      ensures Valid()
      ensures var d := HeartbeatDecision(old(isOpen), old(isAuthenticated), now, old(lastPongTime), old(lastHeartbeatTime), config);
        && (d == Idle ==>
              && sent == old(sent) && lastHeartbeatTime == old(lastHeartbeatTime)
              && reconnectAttempts == old(reconnectAttempts) && executor == old(executor))
        && (d == Ping ==>
              && sent == old(sent) + [PingMessage(now)] && lastHeartbeatTime == now
              && reconnectAttempts == old(reconnectAttempts) && executor == old(executor))
        && (d == Reconnect ==> sent == old(sent) && lastHeartbeatTime == old(lastHeartbeatTime))
        && (d == Reconnect && !old(isConnecting) && old(reconnectAttempts) < config.maxReconnectAttempts ==>
              && reconnectAttempts == old(reconnectAttempts) + 1
              && executor == Some(ReconnectAfter(config.reconnectInterval * reconnectAttempts)))
        && (d == Reconnect && (old(isConnecting) || old(reconnectAttempts) >= config.maxReconnectAttempts) ==>
              reconnectAttempts == old(reconnectAttempts) && executor == old(executor))
    {
      match HeartbeatDecision(isOpen, isAuthenticated, now, lastPongTime, lastHeartbeatTime, config)
      case Reconnect => ScheduleReconnect();
      case Ping => SendHeartbeat(now);
      case Idle =>
    }
  }
}
