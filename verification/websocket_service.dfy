/** `WebSocketService`: the facade the rest of the plugin talks to. It owns at most
    one `ChatWebSocketClient`, refuses to send while that client is not connected, and
    builds the outbound event frames and request payloads. */
module WebSocketService {
  import opened KotlinText
  import opened JsonUtil
  import opened PluginConfig
  import opened ResponsePool
  import opened WebSocketClient

  /** How one `connect` call goes: the URL does not parse (`create` throws), or the new
      client's socket has opened at time `now` within the one-second wait, or it has not. */
  datatype ConnectOutcome = InvalidUrl | OpenedAt(now: int) | NotOpened

  /** The payload of `sendRequest`. */
  function RequestPayload(action: string, params: Envelope, requestId: string): (m: Envelope)
    ensures m.Keys == {"action", "params", "echo"}
    ensures GetString(m, "action", "") == action && m["params"] == JObj(params)
    ensures GetOptString(m, "echo") == Some(requestId)
  {
    map["action" := JStr(action), "params" := JObj(params), "echo" := JStr(requestId)]
  }

  class Service {
    const config: WebSocketConfig
    const pool: Pool
    var client: ChatWebSocketClient?
    var isConnecting: bool
    var messageHandler: Option<HandlerId>

    /** The current client, if any, belongs to this service: same configuration, same
        pool, and the service's handler. */
    ghost predicate Valid()
      reads this, pool, client
    {
      && pool.Valid()
      && (client != null ==>
            client.config == config && client.pool == pool && client.Valid()
            && client.messageHandler == messageHandler)
    }

    constructor(config: WebSocketConfig, pool: Pool)
      requires pool.Valid()
      ensures Valid()
      ensures this.config == config && this.pool == pool
      ensures client == null && !isConnecting && messageHandler == None
    {
      this.config := config;
      this.pool := pool;
      client := null;
      isConnecting := false;
      messageHandler := None;
    }

    /** `setMessageHandler`: stored here and installed on the current client. */
    method SetMessageHandler(handler: HandlerId)
      requires Valid()
      modifies this, client
      ensures Valid()
      ensures messageHandler == Some(handler) && client == old(client) && isConnecting == old(isConnecting)
      ensures client != null ==>
        client.messageHandler == Some(handler) && client.isOpen == old(client.isOpen) && client.sent == old(client.sent)
    {
      messageHandler := Some(handler);
      if client != null {
        client.SetMessageHandler(handler);
      }
    }

    /** `connect`: refused while another `connect` runs; otherwise a new client with
        the stored handler replaces the current one, and the result says whether its
        socket opened. `isConnecting` is clear again on every return of a call that got
        past the guard. The replaced client is not closed. */
    method Connect(outcome: ConnectOutcome) returns (r: bool)
      requires Valid()
      modifies this
      ensures Valid()
      ensures old(isConnecting) ==> !r && unchanged(this)
      ensures !old(isConnecting) ==> !isConnecting && messageHandler == old(messageHandler)
      ensures !old(isConnecting) && outcome.InvalidUrl? ==> !r && client == old(client)
      ensures !old(isConnecting) && !outcome.InvalidUrl? ==>
        && client != null && fresh(client) && client.messageHandler == messageHandler
        && client.messageQueue == [] && client.handled == []
        && r == outcome.OpenedAt?
        && (outcome.OpenedAt? ==> client.isOpen && client.sent == [AuthMessage(config.token, outcome.now)])
        && (outcome.NotOpened? ==> !client.isOpen && client.sent == [])
    {
      if isConnecting {
        return false;
      }
      isConnecting := true;
      if outcome.InvalidUrl? {
        isConnecting := false;
        return false;
      }
      var c := new ChatWebSocketClient(config, pool);
      if messageHandler.Some? {
        c.SetMessageHandler(messageHandler.value);
      }
      client := c;
      if outcome.OpenedAt? {
        c.OnOpen(outcome.now);
      }
      r := c.IsConnected();
      isConnecting := false;
    }

    /** `disconnect`: the client, if any, is closed normally and dropped. */
    method Disconnect()
      requires Valid()
      modifies this, client
      ensures Valid()
      ensures client == null
      ensures messageHandler == old(messageHandler) && isConnecting == old(isConnecting)
      ensures old(client) != null ==> !old(client).isOpen && old(client).closeCodes == old(client.closeCodes) + [1000]
    {
      if client != null {
        client.SafeClose();
      }
      client := null;
    }

    /** `send_dict`: only a connected client transmits; without one nothing is sent
        and nothing is queued. */
    method SendDict(frame: Envelope) returns (r: bool)
      requires Valid()
      modifies client
      ensures Valid()
      ensures r <==> old(client != null && client.isOpen)
      ensures r ==> client.sent == old(client.sent) + [frame] && client.messageQueue == old(client.messageQueue)
      ensures !r && client != null ==> client.sent == old(client.sent) && client.messageQueue == old(client.messageQueue)
      ensures client != null ==> client.isOpen == old(client.isOpen) && client.handled == old(client.handled)
    {
      if client != null && client.isOpen {
        r := client.SendDict(frame);
      } else {
        r := false;
      }
    }

    /** `isConnected`. */
    method IsConnected() returns (r: bool)
      ensures r <==> client != null && client.isOpen
    {
      r := client != null && client.isOpen;
    }

    /** `reconnect`: a `disconnect` followed by a `connect`. */
    method Reconnect(outcome: ConnectOutcome) returns (r: bool)
      requires Valid()
      modifies this, client
      ensures Valid()
      ensures old(isConnecting) ==> !r && client == null
      ensures !old(isConnecting) && outcome.InvalidUrl? ==> !r && client == null
      ensures !old(isConnecting) && !outcome.InvalidUrl? ==> client != null && fresh(client) && r == outcome.OpenedAt?
    {
      Disconnect();
      r := Connect(outcome);
    }

    /** `shutdown`: a `disconnect`; afterwards nothing is connected. */
    method Shutdown()
      requires Valid()
      modifies this, client
      ensures Valid()
      ensures client == null
    {
      Disconnect();
      var connected := IsConnected();
      assert !connected;
    }

    /** `sendPlayerChatEvent`. */
    method SendPlayerChatEvent(player: string, message: string, server: string) returns (r: bool)
      requires Valid()
      modifies client
      ensures Valid()
      ensures r <==> old(client != null && client.isOpen)
      ensures r ==> client.sent == old(client.sent) + [BuildPlayerChatEvent(player, message, server)]
      ensures !r && client != null ==> client.sent == old(client.sent) && client.messageQueue == old(client.messageQueue)
    {
      r := SendDict(BuildPlayerChatEvent(player, message, server));
    }

    /** `sendPlayerLeftEvent`. */
    method SendPlayerLeftEvent(player: string) returns (r: bool)
      requires Valid()
      modifies client
      ensures Valid()
      ensures r <==> old(client != null && client.isOpen)
      ensures r ==> client.sent == old(client.sent) + [BuildPlayerLeftEvent(player)]
      ensures !r && client != null ==> client.sent == old(client.sent) && client.messageQueue == old(client.messageQueue)
    {
      r := SendDict(BuildPlayerLeftEvent(player));
    }

    /** `sendPlayerJoinEvent`. */
    method SendPlayerJoinEvent(player: string, server: string) returns (r: bool)
      requires Valid()
      modifies client
      ensures Valid()
      ensures r <==> old(client != null && client.isOpen)
      ensures r ==> client.sent == old(client.sent) + [BuildPlayerJoinEvent(player, server)]
      ensures !r && client != null ==> client.sent == old(client.sent) && client.messageQueue == old(client.messageQueue)
    {
      r := SendDict(BuildPlayerJoinEvent(player, server));
    }

    /** `sendPlayerHandoffEvent`. */
    method SendPlayerHandoffEvent(player: string, fromServer: string, toServer: string) returns (r: bool)
      requires Valid()
      modifies client
      ensures Valid()
      ensures r <==> old(client != null && client.isOpen)
      ensures r ==> client.sent == old(client.sent) + [BuildPlayerHandoffEvent(player, fromServer, toServer)]
      ensures !r && client != null ==> client.sent == old(client.sent) && client.messageQueue == old(client.messageQueue)
    {
      r := SendDict(BuildPlayerHandoffEvent(player, fromServer, toServer));
    }

    /** `sendRequest` up to the wait: nothing without a connected client; otherwise
        the payload goes out carrying the fresh id `requestId` as its `echo`, and the
        id is registered in the pool. The result is the future the caller then waits
        on (`Pool.FinishWait`). */
    method SendRequest(action: string, params: Envelope, requestId: string, now: int) returns (waiting: Option<nat>)
      requires Valid()
      modifies client, pool
      ensures Valid()
      ensures !old(client != null && client.isOpen) ==> waiting == None && unchanged(pool)
      ensures !old(client != null && client.isOpen) && client != null ==>
        client.sent == old(client.sent) && client.messageQueue == old(client.messageQueue)
      ensures old(client != null && client.isOpen) ==>
        && client.sent == old(client.sent) + [RequestPayload(action, params, requestId)]
        && waiting.Some? && waiting.value !in old(pool.waiters)
        && pool.responseMap == old(pool.responseMap)[requestId := waiting.value]
        && pool.responseTimeMap == old(pool.responseTimeMap)[requestId := now]
        && pool.waiters == old(pool.waiters)[waiting.value := Pending]
    {
      if client == null || !client.isOpen {
        return None;
      }
      var ok := client.SendDict(RequestPayload(action, params, requestId));
      if ok {
        var ticket := pool.Register(requestId, now);
        waiting := Some(ticket);
      } else {
        waiting := None;
      }
    }
  }
}
