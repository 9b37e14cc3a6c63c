/** `PluginConfig`: the plugin's configuration record and its defaults. */
module PluginConfig {
  import opened KotlinText

  /** The server-prefix mapping is a Kotlin `Map<String, String>` loaded from YAML into an
      insertion-ordered map, so it is an association list whose keys are distinct; its key
      order is the order in which broadcasts visit the servers. */
  ghost predicate KeysDistinct(m: seq<(string, string)>) {
    forall i, j | 0 <= i < j < |m| :: m[i].0 != m[j].0
  }

  type PrefixMapping = m: seq<(string, string)> | KeysDistinct(m) witness []

  /** The mapping's keys, in map order. */
  function Keys(m: PrefixMapping): (r: seq<string>)
    ensures |r| == |m|
    ensures forall i | 0 <= i < |m| :: r[i] == m[i].0
  {
    seq(|m|, i requires 0 <= i < |m| => m[i].0)
  }

  /** `serverPrefixMapping[key]`: the value stored under `key`, or null. */
  function Lookup(m: PrefixMapping, key: string): (r: Option<string>)
    ensures r.Some? <==> key in Keys(m)
    ensures r.Some? ==> exists i :: 0 <= i < |m| && m[i] == (key, r.value)
  {
    if |m| == 0 then None
    else if m[0].0 == key then Some(m[0].1)
    else
      var rest: PrefixMapping := m[1..];
      assert forall i | 0 <= i < |rest| :: rest[i] == m[i + 1];
      Lookup(rest, key)
  }

  datatype WebSocketConfig = WebSocketConfig(
    url: string,
    token: string,
    reconnectInterval: int,
    maxReconnectAttempts: int,
    heartbeatInterval: int,
    heartbeatTimeout: int)

  datatype ChatConfig = ChatConfig(
    mainPrefix: string,
    mcdrCommandPrefix: seq<string>,
    serverPrefixMapping: PrefixMapping)

  datatype StorageConfig = StorageConfig(playerPersonalityFile: string)

  datatype Config = Config(websocket: WebSocketConfig, chat: ChatConfig, storage: StorageConfig)

  /** `WebSocketConfig()` with every default argument. */
  function DefaultWebSocketConfig(): WebSocketConfig {
    WebSocketConfig("ws://localhost:8080/chat", "", 5000, 10, 30000, 60000)
  }

  /** `ChatConfig()` with every default argument. */
  function DefaultChatConfig(): ChatConfig {
    ChatConfig(
      "\U{A7}8[\U{A7}a群组\U{A7}8]\U{A7}r",
      ["!!", "##"],
      [("lobby", "\U{A7}6大厅"), ("survival", "\U{A7}2生存"), ("creative", "\U{A7}b创造"), ("minigame", "\U{A7}e小游戏")])
  }

  /** `StorageConfig()` with every default argument. */
  function DefaultStorageConfig(): StorageConfig {
    StorageConfig("player_personality.json")
  }

  /** `PluginConfig.default()`: the all-defaults configuration. */
  function Default(): (c: Config)
    ensures c.websocket.url == "ws://localhost:8080/chat" && c.websocket.token == ""
    ensures c.websocket.reconnectInterval == 5000 && c.websocket.maxReconnectAttempts == 10
    ensures c.websocket.heartbeatInterval == 30000 && c.websocket.heartbeatTimeout == 60000
    ensures c.chat.mcdrCommandPrefix == ["!!", "##"]
    ensures Keys(c.chat.serverPrefixMapping) == ["lobby", "survival", "creative", "minigame"]
  {
    Config(DefaultWebSocketConfig(), DefaultChatConfig(), DefaultStorageConfig())
  }

  /** By default a missing pong is noticed only after more than one heartbeat interval. */
  lemma DefaultTimeoutExceedsInterval()
    ensures Default().websocket.heartbeatTimeout > Default().websocket.heartbeatInterval
  {
  }
}
