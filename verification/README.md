# ChatForward in Dafny

ChatForward is a Velocity proxy plugin that bridges the chat of a Minecraft server
network with an external chat server over a WebSocket. Outbound, it reports
player chat lines, server switches, joins and leaves as small JSON envelopes
(`{"Mode": "PlayerChatEvent", ...}`). Inbound, it turns the chat server's envelopes
into chat lines on the backend servers, and it answers `player_list` and
`server_status` requests, echoing the request id back. The connection
authenticates with a token, sends heartbeats, reconnects after abnormal closes,
and queues frames while it is down.

This project models the plugin's core and proves properties of the model:

- `message_handler.dfy` (`MessageHandler`) is the inbound dispatcher. It is a pure
  function from an envelope, the configuration and a snapshot of the proxy (server
  name to connected players) to the chat deliveries, in order, and at most one reply.
- `websocket_client.dfy` (`WebSocketClient`) is the connection state machine, the
  class `ChatWebSocketClient`.
  - The socket is an `isOpen` flag plus the sequence of frames it sent.
  - The library callbacks and timer firings are methods that take `now`.
  - The one `scheduledExecutor` field is a slot holding the job it runs.
- `response_pool.dfy` (`ResponsePool`) is the request/response correlation store, the
  class `Pool`. It has two maps with one key set, and a record of what became of
  every future.
- `websocket_service.dfy` (`WebSocketService`) is the facade, the class `Service`. It
  owns at most one client and builds the outbound frames.
- Pure helpers:
  - `json_util.dfy` (`JsonUtil`): envelopes, `getString` and the event builders.
  - `color_codes.dfy` (`MinecraftColorCodeUtil`): the `§` code scanners as loops
    proved against recursive definitions.
  - `plugin_config.dfy` (`PluginConfig`) and `config_manager.dfy` (`ConfigManager`):
    the configuration, its defaults and its validation.
  - The two listeners, `player_chat_listener.dfy` and
    `player_switch_server_listener.dfy`. The second holds the `name='…'` fallback
    parser.
  - `reload_command.dfy` (`ReloadCommand`).
  - `kotlin_text.dfy` (`KotlinText`): `isBlank`, `startsWith` and `lowercaseChar`.

Where comments in the source and its code disagree, the model follows the code:

- The reconnect back-off is linear: interval times attempt number, although the
  comment calls it exponential.
- While unauthenticated, any parsed message other than `auth`/`ok` closes the
  socket with 1008.
- A response is recognised by a present `echo`, even an empty one.
- The chat line does not use the server prefix that `handlePlayerChatEvent`
  computes.
- The service refuses to send while disconnected; it does not queue.

## Model

Every source path below is written out in full.

| member | source | states |
|---|---|---|
| KotlinText.IsNotBlank | src/main/kotlin/cn/esuny/chatForward/config/ConfigManager.kt:130 | `isNotBlank` holds exactly when some character is not JVM whitespace, so a non-blank text is non-empty |
| JsonUtil.ValueString | src/main/kotlin/cn/esuny/chatForward/util/JsonUtil.kt:114-116 | fastjson's `getString` of a stored value: null for null, the text of a string, decimal digits for a number, `true`/`false` for a boolean |
| JsonUtil.GetOptString | src/main/kotlin/cn/esuny/chatForward/util/JsonUtil.kt:114-116 | reading a key gives null when it is absent or null, and the stored string when it holds one |
| JsonUtil.GetString | src/main/kotlin/cn/esuny/chatForward/util/JsonUtil.kt:114-116 | `getString(json, key, d)` is `d` for an absent or null key and the stored string otherwise |
| JsonUtil.ParseObject | src/main/kotlin/cn/esuny/chatForward/util/JsonUtil.kt:41-48 | a parse that throws gives null instead of an exception; a result exists exactly when the parser produced an object |
| JsonUtil.BuildPlayerChatEvent | src/main/kotlin/cn/esuny/chatForward/util/JsonUtil.kt:65-73 | exactly the keys `Mode`, `player`, `message`, `server`, and reading each back gives `PlayerChatEvent` and the three inputs |
| JsonUtil.BuildPlayerLeftEvent | src/main/kotlin/cn/esuny/chatForward/util/JsonUtil.kt:78-84 | exactly `Mode` and `player`, read back as `PlayerLeftEvent` and the player |
| JsonUtil.BuildPlayerJoinEvent | src/main/kotlin/cn/esuny/chatForward/util/JsonUtil.kt:89-96 | exactly `Mode`, `player`, `server`, read back as `PlayerJoinEvent` and the inputs |
| JsonUtil.BuildPlayerHandoffEvent | src/main/kotlin/cn/esuny/chatForward/util/JsonUtil.kt:101-109 | exactly `Mode`, `player`, `fromserver`, `toserver`, read back as `PlayerHandoffEvent` and the inputs |
| JsonUtil.ModeTagsDistinct | src/main/kotlin/cn/esuny/chatForward/util/JsonUtil.kt:65-109 | the four `Mode` tags are non-blank and pairwise different, so the dispatcher can tell the events apart |
| PluginConfig.Keys | src/main/kotlin/cn/esuny/chatForward/config/PluginConfig.kt:32-37 | the keys of the server-prefix mapping, one per entry, in map order |
| PluginConfig.Lookup | src/main/kotlin/cn/esuny/chatForward/websocket/MessageHandler.kt:107 | `serverPrefixMapping[key]` is present exactly for a key of the mapping, and is the value stored with it |
| PluginConfig.Default | src/main/kotlin/cn/esuny/chatForward/config/PluginConfig.kt:17-57 | the defaults: URL `ws://localhost:8080/chat`, blank token, 5000 ms, 10 attempts, 30000 ms and 60000 ms, prefixes `!!` and `##`, mapping keys `lobby`, `survival`, `creative`, `minigame` in that order |
| PluginConfig.DefaultTimeoutExceedsInterval | src/main/kotlin/cn/esuny/chatForward/config/PluginConfig.kt:22-23 | the default heartbeat timeout is longer than the default heartbeat interval |
| ConfigManager.ValidateConfig | src/main/kotlin/cn/esuny/chatForward/config/ConfigManager.kt:126-163 | the `if` chain returns the messages of the failing checks in check order, and it returns nothing exactly when the configuration is valid |
| ConfigManager.MessageNamesCheck | src/main/kotlin/cn/esuny/chatForward/config/ConfigManager.kt:131-159 | the nine messages are pairwise different, so a message names its check |
| ConfigManager.ValidateWebSocket | src/main/kotlin/cn/esuny/chatForward/config/ConfigManager.kt:129-147 | the six WebSocket checks (URL and token not blank, reconnect interval at least 1000, attempts not negative, heartbeat interval at least 5000, heartbeat timeout at least 10000) each add their message exactly when they fail, in that order |
| ConfigManager.ValidateChat | src/main/kotlin/cn/esuny/chatForward/config/ConfigManager.kt:149-155 | the main-prefix-not-blank and prefix-mapping-not-empty checks each add their message exactly when they fail, in that order |
| ConfigManager.ValidateStorage | src/main/kotlin/cn/esuny/chatForward/config/ConfigManager.kt:157-160 | the personality-file-name-not-blank check adds its message exactly when it fails |
| ConfigManager.AllChecks | src/main/kotlin/cn/esuny/chatForward/config/ConfigManager.kt:126-163 | the list of errors is what the nine checks leave when run one after another in source order |
| ConfigManager.ErrorsUpToShape | src/main/kotlin/cn/esuny/chatForward/config/ConfigManager.kt:127-160 | after the first k checks there are at most k errors; a check's message is present iff it failed; every error is some failed check's message |
| ConfigManager.NoErrorsIffValid | src/main/kotlin/cn/esuny/chatForward/config/ConfigManager.kt:126-163 | the list is empty iff the url, token, main prefix and file name are non-blank, the four numeric bounds hold and the mapping is non-empty |
| ConfigManager.ErrorsMatchFailedChecks | src/main/kotlin/cn/esuny/chatForward/config/ConfigManager.kt:126-163 | at most nine errors; each check's message is reported exactly when that check fails, and nothing else is reported |
| ConfigManager.ErrorsInCheckOrder | src/main/kotlin/cn/esuny/chatForward/config/ConfigManager.kt:127-162 | of two failing checks, the earlier one's message comes first in the list |
| ConfigManager.PrefixGrows | src/main/kotlin/cn/esuny/chatForward/config/ConfigManager.kt:127-162 | later checks only append to the list, never remove or reorder |
| ConfigManager.BoundaryValuesAccepted | src/main/kotlin/cn/esuny/chatForward/config/ConfigManager.kt:136-147 | reconnect interval 1000, attempts 0, heartbeat interval 5000 and timeout 10000 pass their checks |
| ConfigManager.DefaultFailsOnlyOnToken | src/main/kotlin/cn/esuny/chatForward/config/PluginConfig.kt:17-45 | the default configuration fails validation on its blank token alone |
| MinecraftColorCodeUtil.TablesDisjoint | src/main/kotlin/cn/esuny/chatForward/util/MinecraftColorCodeUtil.kt:12-39 | no character is both a color code and a format code |
| MinecraftColorCodeUtil.NoEntryNamedUnknown | src/main/kotlin/cn/esuny/chatForward/util/MinecraftColorCodeUtil.kt:12-39 | no table entry is named `unknown`, so that answer always means "not a code" |
| MinecraftColorCodeUtil.IsValidColorCode | src/main/kotlin/cn/esuny/chatForward/util/MinecraftColorCodeUtil.kt:167-169 | valid exactly for `0-9`, `a-f` and `A-F` |
| MinecraftColorCodeUtil.IsValidFormatCode | src/main/kotlin/cn/esuny/chatForward/util/MinecraftColorCodeUtil.kt:174-176 | valid exactly for `klmnor`, `KLMNOR` and the Kelvin sign, whose lower case is `k` |
| MinecraftColorCodeUtil.IsCodeIffValid | src/main/kotlin/cn/esuny/chatForward/util/MinecraftColorCodeUtil.kt:119 | the scanners' test is membership of the lower-cased character in either table, i.e. either validator |
| MinecraftColorCodeUtil.LowercaseCode | src/main/kotlin/cn/esuny/chatForward/util/MinecraftColorCodeUtil.kt:50 | lower-casing a code gives a code, never `§`, and lower-casing again changes nothing |
| MinecraftColorCodeUtil.GetColorName | src/main/kotlin/cn/esuny/chatForward/util/MinecraftColorCodeUtil.kt:153-155 | the table entry of the lower-cased code when it is a color code, `unknown` otherwise |
| MinecraftColorCodeUtil.GetFormatName | src/main/kotlin/cn/esuny/chatForward/util/MinecraftColorCodeUtil.kt:160-162 | the table entry of the lower-cased code when it is a format code, `unknown` otherwise |
| MinecraftColorCodeUtil.NameKnownIffValid | src/main/kotlin/cn/esuny/chatForward/util/MinecraftColorCodeUtil.kt:153-176 | a name other than `unknown` comes back exactly for a valid code |
| MinecraftColorCodeUtil.GetValidColorCodes | src/main/kotlin/cn/esuny/chatForward/util/MinecraftColorCodeUtil.kt:181-183 | sixteen distinct characters, exactly the color table's keys |
| MinecraftColorCodeUtil.GetValidFormatCodes | src/main/kotlin/cn/esuny/chatForward/util/MinecraftColorCodeUtil.kt:188-190 | six distinct characters, exactly the format table's keys |
| MinecraftColorCodeUtil.LowercasedCodes | src/main/kotlin/cn/esuny/chatForward/util/MinecraftColorCodeUtil.kt:44-78 | the replacement keeps the length of the text |
| MinecraftColorCodeUtil.LowercasedCodesAt | src/main/kotlin/cn/esuny/chatForward/util/MinecraftColorCodeUtil.kt:48-72 | a character changes exactly when it is a code right after `§`, and then becomes its lower case |
| MinecraftColorCodeUtil.LowercasedCodesUnfold | src/main/kotlin/cn/esuny/chatForward/util/MinecraftColorCodeUtil.kt:48-72 | at any position, a `§` followed by a known code is emitted as `§` and the lower-cased code and both are consumed; any other character is copied and consumed alone |
| MinecraftColorCodeUtil.LowercasedCodesChangesOnlyCodes | src/main/kotlin/cn/esuny/chatForward/util/MinecraftColorCodeUtil.kt:48-72 | every character that is not a code following `§` is left as it was |
| MinecraftColorCodeUtil.LowercasedCodesIdempotent | src/main/kotlin/cn/esuny/chatForward/util/MinecraftColorCodeUtil.kt:49-67 | replacing twice gives the same text as replacing once |
| MinecraftColorCodeUtil.StrippedShape | src/main/kotlin/cn/esuny/chatForward/util/MinecraftColorCodeUtil.kt:83-101 | stripping never lengthens the text, and leaves `§` only as the last character |
| MinecraftColorCodeUtil.CodeCountBounds | src/main/kotlin/cn/esuny/chatForward/util/MinecraftColorCodeUtil.kt:113-128 | the count is at most the number of `§` characters and at most half the length |
| MinecraftColorCodeUtil.SectionCountMonotone | src/main/kotlin/cn/esuny/chatForward/util/MinecraftColorCodeUtil.kt:113-128 | dropping the first character never adds a `§` |
| MinecraftColorCodeUtil.ContainsColorCodes | src/main/kotlin/cn/esuny/chatForward/util/MinecraftColorCodeUtil.kt:106-108 | true exactly when the text contains `§` |
| MinecraftColorCodeUtil.NoSectionSignUntouched | src/main/kotlin/cn/esuny/chatForward/util/MinecraftColorCodeUtil.kt:44-197 | a text without `§` is left unchanged by replacing, stripping and escaping, and counts zero codes |
| MinecraftColorCodeUtil.EscapeColorCodes | src/main/kotlin/cn/esuny/chatForward/util/MinecraftColorCodeUtil.kt:195-197 | the escaped text has no `§`, and is five characters longer per `§` |
| MinecraftColorCodeUtil.ReplaceColorCode | src/main/kotlin/cn/esuny/chatForward/util/MinecraftColorCodeUtil.kt:44-78 | the index loop builds exactly the lower-cased-codes text |
| MinecraftColorCodeUtil.StripColorCodes | src/main/kotlin/cn/esuny/chatForward/util/MinecraftColorCodeUtil.kt:83-101 | the index loop builds exactly the stripped text |
| MinecraftColorCodeUtil.CountColorCodes | src/main/kotlin/cn/esuny/chatForward/util/MinecraftColorCodeUtil.kt:113-128 | the index loop counts exactly the scanned pairs whose second character is a code |
| MessageHandler.DisplayName | src/main/kotlin/cn/esuny/chatForward/websocket/MessageHandler.kt:107 | a mapped server shows its prefix from the mapping; any other server shows its raw name |
| MessageHandler.BroadcastToServer | src/main/kotlin/cn/esuny/chatForward/websocket/MessageHandler.kt:286-294 | one delivery of the text to the named server if the proxy has it, none otherwise |
| MessageHandler.BroadcastToServers | src/main/kotlin/cn/esuny/chatForward/websocket/MessageHandler.kt:266-270 | deliveries go only to listed servers the proxy has, and every such server gets one |
| MessageHandler.BroadcastInOrder | src/main/kotlin/cn/esuny/chatForward/websocket/MessageHandler.kt:266-270 | when the proxy has all listed servers, the deliveries follow the list one for one |
| MessageHandler.BroadcastToAllServers | src/main/kotlin/cn/esuny/chatForward/websocket/MessageHandler.kt:257-261 | deliveries go to mapping keys the proxy has, and every such key gets one |
| MessageHandler.BroadcastToSpecificServers | src/main/kotlin/cn/esuny/chatForward/websocket/MessageHandler.kt:275-281 | deliveries go only to listed names that are mapping keys the proxy has, each such name gets one, and null entries get none |
| MessageHandler.KeyedNames | src/main/kotlin/cn/esuny/chatForward/websocket/MessageHandler.kt:276-277 | the filter of the `forEach` keeps only listed names that are mapping keys, and every such name |
| MessageHandler.KeyedNamesKeepsAll | src/main/kotlin/cn/esuny/chatForward/websocket/MessageHandler.kt:276-277 | when every entry is a mapping key the filter keeps all of them, one for one, duplicates included, in list order |
| MessageHandler.SpecificIsKeyedBroadcast | src/main/kotlin/cn/esuny/chatForward/websocket/MessageHandler.kt:275-281 | the specific-server broadcast is the plain broadcast over the keyed names, in list order |
| MessageHandler.SpecificBroadcastInOrder | src/main/kotlin/cn/esuny/chatForward/websocket/MessageHandler.kt:275-281 | when the proxy has every keyed name, delivery i goes to the i-th keyed entry of the list |
| MessageHandler.HandlePlayerChatEvent | src/main/kotlin/cn/esuny/chatForward/websocket/MessageHandler.kt:82-98 | at most one delivery, to the sender's server, with text `mainPrefix`, the reset code, `<player>`, the grey colour code and the message, and only when player and message are non-blank |
| MessageHandler.HandlePlayerJoinEvent | src/main/kotlin/cn/esuny/chatForward/websocket/MessageHandler.kt:103-114 | at most one delivery, to the joined server, naming it by its prefix, and only when player and server are non-blank |
| MessageHandler.HandlePlayerLeftEvent | src/main/kotlin/cn/esuny/chatForward/websocket/MessageHandler.kt:119-128 | nothing for a blank player; otherwise the leave notice reaches every mapped server the proxy has and no other server |
| MessageHandler.HandlePlayerHandoffEvent | src/main/kotlin/cn/esuny/chatForward/websocket/MessageHandler.kt:133-146 | nothing unless all three fields are non-blank; the notice goes to the old server, then the new one, naming both by their prefixes |
| MessageHandler.BroadcastInOrderPair | src/main/kotlin/cn/esuny/chatForward/websocket/MessageHandler.kt:142 | two known servers get the text in the order given |
| MessageHandler.ArrayStrings | src/main/kotlin/cn/esuny/chatForward/websocket/MessageHandler.kt:171 | each array element read as a string, element by element |
| MessageHandler.ServersField | src/main/kotlin/cn/esuny/chatForward/websocket/MessageHandler.kt:171 | a missing or null `servers` is the empty list, an array is its elements, and any other value makes the read throw |
| MessageHandler.HandleBroadcastMessage | src/main/kotlin/cn/esuny/chatForward/websocket/MessageHandler.kt:165-182 | a blank message sends nothing; target `all` (the default) reaches every mapped server; `specific_servers` reaches the listed mapped servers only, in list order, one delivery per keyed entry; any other target sends nothing |
| MessageHandler.GetPlayerList | src/main/kotlin/cn/esuny/chatForward/websocket/MessageHandler.kt:299-311 | all players for `all`, the server's players for a known server, nobody for an unknown one |
| MessageHandler.NamesArray | src/main/kotlin/cn/esuny/chatForward/websocket/MessageHandler.kt:212 | the names as a JSON array of strings, in order |
| MessageHandler.HandlePlayerListRequest | src/main/kotlin/cn/esuny/chatForward/websocket/MessageHandler.kt:201-218 | a reply exactly when `echo` is non-blank: action `player_list_response`, the server asked about (default `all`), its players, their number and the same echo |
| MessageHandler.ServerEntry | src/main/kotlin/cn/esuny/chatForward/websocket/MessageHandler.kt:320-330 | `online` says whether the proxy has the server; the count is the length of the player array; an unknown server has count 0 and no players |
| MessageHandler.GetServerStatus | src/main/kotlin/cn/esuny/chatForward/websocket/MessageHandler.kt:316-337 | one entry per mapping key and no other, the proxy's player total, `online` true and the time of the report |
| MessageHandler.HandleServerStatusRequest | src/main/kotlin/cn/esuny/chatForward/websocket/MessageHandler.kt:223-237 | a reply exactly when `echo` is non-blank, carrying the status report and the same echo |
| MessageHandler.HandleModeMessage | src/main/kotlin/cn/esuny/chatForward/websocket/MessageHandler.kt:53-62 | player events never reply; `PlayerListUpdate` and unknown modes deliver nothing; deliveries only reach servers the proxy has |
| MessageHandler.HandleActionMessage | src/main/kotlin/cn/esuny/chatForward/websocket/MessageHandler.kt:67-77 | only `broadcast` delivers and only `player_list`/`server_status` reply; `command`, `auth`, `ping` and unknown actions do nothing |
| MessageHandler.ProcessJsonMessage | src/main/kotlin/cn/esuny/chatForward/websocket/MessageHandler.kt:39-48 | blank `Mode` and `action` do nothing; a non-blank `Mode` never replies; a reply comes only for the two requests, delivers nothing and carries the request's echo |
| MessageHandler.HandleMessage | src/main/kotlin/cn/esuny/chatForward/websocket/MessageHandler.kt:23-34 | text that does not parse to an object, and the empty object, do nothing |
| MessageHandler.GetStringOtherKey | src/main/kotlin/cn/esuny/chatForward/util/JsonUtil.kt:114-116 | overwriting one key does not change what `getString` reads under another |
| MessageHandler.ModeTakesPrecedence | src/main/kotlin/cn/esuny/chatForward/websocket/MessageHandler.kt:39-48 | with a non-blank `Mode`, whatever `action` holds changes nothing |
| MessageHandler.ChatEventRoundTrip | src/main/kotlin/cn/esuny/chatForward/websocket/MessageHandler.kt:82-98 | an outbound chat event, received back, becomes exactly the chat line on its server |
| MessageHandler.JoinEventRoundTrip | src/main/kotlin/cn/esuny/chatForward/websocket/MessageHandler.kt:103-114 | an outbound join event, received back, becomes exactly the join notice on its server |
| MessageHandler.HandoffEventRoundTrip | src/main/kotlin/cn/esuny/chatForward/websocket/MessageHandler.kt:133-146 | an outbound handoff event, received back, becomes the notice on the old server and then the new one |
| MessageHandler.LeftEventRoundTrip | src/main/kotlin/cn/esuny/chatForward/websocket/MessageHandler.kt:119-128 | an outbound left event, received back, becomes the leave notice on each mapped server, in mapping order |
| ResponsePool.Cancel | src/main/kotlin/cn/esuny/chatForward/websocket/ResponsePool.kt:76 | cancelling a pending future cancels it; a finished one keeps its outcome |
| ResponsePool.CancelAll | src/main/kotlin/cn/esuny/chatForward/websocket/ResponsePool.kt:96 | the chosen futures are cancelled and every other future is unchanged |
| ResponsePool.Pool.constructor | src/main/kotlin/cn/esuny/chatForward/websocket/ResponsePool.kt:12-13 | both maps start empty |
| ResponsePool.Pool.Register | src/main/kotlin/cn/esuny/chatForward/websocket/ResponsePool.kt:25-27 | a fresh pending future under the id, stamped with `now`, replacing any earlier one; the key sets stay equal |
| ResponsePool.Pool.Abandon | src/main/kotlin/cn/esuny/chatForward/websocket/ResponsePool.kt:31-41 | after a timeout or failure exactly that id leaves both maps |
| ResponsePool.Pool.FinishWait | src/main/kotlin/cn/esuny/chatForward/websocket/ResponsePool.kt:29-41 | a completed future yields its response; otherwise the id leaves both maps and nothing is returned |
| ResponsePool.Pool.PutResponse | src/main/kotlin/cn/esuny/chatForward/websocket/ResponsePool.kt:49-59 | the id leaves both maps; its future, if any, completes with the response and the pending count drops by one; an unknown id changes nothing else; no ticket is issued |
| ResponsePool.Pool.CleanTimeoutResponses | src/main/kotlin/cn/esuny/chatForward/websocket/ResponsePool.kt:65-83 | exactly the ids older than the timeout (strictly) leave both maps and have their futures cancelled; everything left is within the timeout |
| ResponsePool.Pool.EvictAll | src/main/kotlin/cn/esuny/chatForward/websocket/ResponsePool.kt:73-78 | the removal loop takes exactly the given ids out of both maps and cancels exactly their futures |
| ResponsePool.Pool.Evict | src/main/kotlin/cn/esuny/chatForward/websocket/ResponsePool.kt:74-76 | one id leaves both maps and its future, if any, is cancelled |
| ResponsePool.Pool.GetPendingCount | src/main/kotlin/cn/esuny/chatForward/websocket/ResponsePool.kt:88-90 | the number of registered ids, the same in both maps |
| ResponsePool.Pool.Clear | src/main/kotlin/cn/esuny/chatForward/websocket/ResponsePool.kt:95-100 | every registered future is cancelled and both maps are empty |
| ResponsePool.OnlyYoungRemain | src/main/kotlin/cn/esuny/chatForward/websocket/ResponsePool.kt:69-71 | what the filter keeps is no older than the timeout |
| ResponsePool.CancelStep | src/main/kotlin/cn/esuny/chatForward/websocket/ResponsePool.kt:73-78 | one more round of the removal loop cancels the futures of one more id |
| WebSocketClient.AuthMessageFields | src/main/kotlin/cn/esuny/chatForward/websocket/WebSocketClient.kt:281-294 | the auth frame has exactly `action = auth`, the token and the timestamp |
| WebSocketClient.PingMessageFields | src/main/kotlin/cn/esuny/chatForward/websocket/WebSocketClient.kt:329-346 | the ping frame has exactly `action = ping` and the timestamp |
| WebSocketClient.RouteOf | src/main/kotlin/cn/esuny/chatForward/websocket/WebSocketClient.kt:77-107 | before authentication only `auth`/`ok` is accepted and all else rejected; after it, `pong`, then a present `echo`, then the handler; exactly one route applies |
| WebSocketClient.FlushedShape | src/main/kotlin/cn/esuny/chatForward/websocket/WebSocketClient.kt:201-219 | the flush sends a prefix of the queue; the failed frame moves to the tail; sent plus remaining is the old queue |
| WebSocketClient.HeartbeatDecision | src/main/kotlin/cn/esuny/chatForward/websocket/WebSocketClient.kt:355-367 | idle unless open and authenticated; reconnect iff no pong for longer than the timeout; otherwise ping iff the last ping is older than the interval |
| WebSocketClient.ChatWebSocketClient.constructor | src/main/kotlin/cn/esuny/chatForward/websocket/WebSocketClient.kt:20-36 | closed, nothing sent or queued, no attempts, unauthenticated, no handler |
| WebSocketClient.ChatWebSocketClient.SetMessageHandler | src/main/kotlin/cn/esuny/chatForward/websocket/WebSocketClient.kt:39-41 | the handler is installed and nothing else changes |
| WebSocketClient.ChatWebSocketClient.Transmit | src/main/kotlin/cn/esuny/chatForward/websocket/WebSocketClient.kt:158 | an open socket appends the frame to what it sent; a closed one sends nothing |
| WebSocketClient.ChatWebSocketClient.OnOpen | src/main/kotlin/cn/esuny/chatForward/websocket/WebSocketClient.kt:46-65 | attempts reset, not connecting, unauthenticated, both clocks at `now`, exactly one auth frame sent, heartbeat check armed |
| WebSocketClient.ChatWebSocketClient.StopHeartbeat | src/main/kotlin/cn/esuny/chatForward/websocket/WebSocketClient.kt:259-262 | the executor is shut down and nothing else changes |
| WebSocketClient.ChatWebSocketClient.StartHeartbeatTimeoutCheck | src/main/kotlin/cn/esuny/chatForward/websocket/WebSocketClient.kt:351-368 | the executor now runs the heartbeat check and nothing else changes |
| WebSocketClient.ChatWebSocketClient.HandleAuthenticationResponse | src/main/kotlin/cn/esuny/chatForward/websocket/WebSocketClient.kt:299-309 | accepted exactly for `action = auth` with `status = ok`, which authenticates the client |
| WebSocketClient.ChatWebSocketClient.HandleHeartbeatResponse | src/main/kotlin/cn/esuny/chatForward/websocket/WebSocketClient.kt:314-324 | a `pong` moves the pong clock to `now`; anything else changes nothing |
| WebSocketClient.ChatWebSocketClient.OnMessage | src/main/kotlin/cn/esuny/chatForward/websocket/WebSocketClient.kt:70-112 | unparseable text changes nothing; otherwise, by route: authenticate and flush, close with 1008, move the pong clock, complete the pool's request (an unknown echo leaves every future as it was), or pass the text to the handler; each route states every field it may touch, authentication stays once granted, and the reconnect, executor, connecting and heartbeat state are never touched |
| WebSocketClient.ChatWebSocketClient.OnClose | src/main/kotlin/cn/esuny/chatForward/websocket/WebSocketClient.kt:117-127 | the socket is closed and the heartbeat stops; a reconnect is scheduled only for a code other than 1000 that this side did not start, and only when no reconnect runs and the maximum is not reached; otherwise the executor is empty and the attempts stay |
| WebSocketClient.ChatWebSocketClient.SendDict | src/main/kotlin/cn/esuny/chatForward/websocket/WebSocketClient.kt:152-162 | open: the frame is sent and the result is true; closed: it joins the tail of the queue, nothing is sent, and the result is false |
| WebSocketClient.ChatWebSocketClient.IsConnected | src/main/kotlin/cn/esuny/chatForward/websocket/WebSocketClient.kt:167-169 | the socket's open flag |
| WebSocketClient.ChatWebSocketClient.GetQueueSize | src/main/kotlin/cn/esuny/chatForward/websocket/WebSocketClient.kt:181-183 | the length of the queue |
| WebSocketClient.ChatWebSocketClient.CloseConnection | src/main/kotlin/cn/esuny/chatForward/websocket/WebSocketClient.kt:373-379 | the socket closes with the given code; queue, frames and counters are kept |
| WebSocketClient.ChatWebSocketClient.SafeClose | src/main/kotlin/cn/esuny/chatForward/websocket/WebSocketClient.kt:188-196 | the heartbeat stops and the socket closes with 1000 |
| WebSocketClient.ChatWebSocketClient.FlushMessageQueue | src/main/kotlin/cn/esuny/chatForward/websocket/WebSocketClient.kt:201-219 | the loop sends and keeps exactly what `Flushed` says, in FIFO order; a closed socket sends nothing |
| WebSocketClient.ChatWebSocketClient.ScheduleReconnect | src/main/kotlin/cn/esuny/chatForward/websocket/WebSocketClient.kt:224-247 | a no-op while connecting or at the maximum; otherwise one more attempt, delayed by interval times the attempt number; attempts never pass the maximum |
| WebSocketClient.ChatWebSocketClient.FireReconnect | src/main/kotlin/cn/esuny/chatForward/websocket/WebSocketClient.kt:234-244 | the scheduled job marks the client connecting; if the library's reconnect throws, the mark is cleared and another reconnect is scheduled |
| WebSocketClient.ChatWebSocketClient.SendHeartbeat | src/main/kotlin/cn/esuny/chatForward/websocket/WebSocketClient.kt:329-346 | nothing before authentication; otherwise a ping goes out and the heartbeat clock moves to `now` |
| WebSocketClient.ChatWebSocketClient.HeartbeatTick | src/main/kotlin/cn/esuny/chatForward/websocket/WebSocketClient.kt:355-367 | the tick does what the heartbeat decision says: nothing at all, a ping that moves the heartbeat clock, or a scheduled reconnect, which is itself a no-op while connecting or at the maximum; no branch touches state another branch owns |
| WebSocketService.RequestPayload | src/main/kotlin/cn/esuny/chatForward/websocket/WebSocketService.kt:199-203 | exactly `action`, `params` and `echo`, carrying the request id |
| WebSocketService.Service.constructor | src/main/kotlin/cn/esuny/chatForward/websocket/WebSocketService.kt:13-19 | no client, not connecting, no handler |
| WebSocketService.Service.SetMessageHandler | src/main/kotlin/cn/esuny/chatForward/websocket/WebSocketService.kt:24-27 | the handler is stored and installed on the current client |
| WebSocketService.Service.Connect | src/main/kotlin/cn/esuny/chatForward/websocket/WebSocketService.kt:32-68 | refused and changes nothing while a connect runs; otherwise a new client with the stored handler, true iff it opened, and not connecting on return |
| WebSocketService.Service.Disconnect | src/main/kotlin/cn/esuny/chatForward/websocket/WebSocketService.kt:73-77 | the old client is closed with 1000 and dropped |
| WebSocketService.Service.SendDict | src/main/kotlin/cn/esuny/chatForward/websocket/WebSocketService.kt:82-103 | true and sent exactly when a client is connected; otherwise false, nothing sent and nothing queued |
| WebSocketService.Service.IsConnected | src/main/kotlin/cn/esuny/chatForward/websocket/WebSocketService.kt:108-110 | there is a client and its socket is open |
| WebSocketService.Service.Reconnect | src/main/kotlin/cn/esuny/chatForward/websocket/WebSocketService.kt:122-126 | a disconnect, then a connect |
| WebSocketService.Service.Shutdown | src/main/kotlin/cn/esuny/chatForward/websocket/WebSocketService.kt:131-134 | afterwards there is no client, so nothing is connected |
| WebSocketService.Service.SendPlayerChatEvent | src/main/kotlin/cn/esuny/chatForward/websocket/WebSocketService.kt:139-150 | the chat event frame goes out exactly when connected |
| WebSocketService.Service.SendPlayerLeftEvent | src/main/kotlin/cn/esuny/chatForward/websocket/WebSocketService.kt:152-161 | the left event frame goes out exactly when connected |
| WebSocketService.Service.SendPlayerJoinEvent | src/main/kotlin/cn/esuny/chatForward/websocket/WebSocketService.kt:163-173 | the join event frame goes out exactly when connected |
| WebSocketService.Service.SendPlayerHandoffEvent | src/main/kotlin/cn/esuny/chatForward/websocket/WebSocketService.kt:175-183 | the handoff event frame goes out exactly when connected |
| WebSocketService.Service.SendRequest | src/main/kotlin/cn/esuny/chatForward/websocket/WebSocketService.kt:191-212 | not connected: nothing sent and no wait; connected: the payload goes out and the id is registered in the pool for the wait |
| PlayerChatListener.StartsWithMcdrCommandPrefix | src/main/kotlin/cn/esuny/chatForward/listeners/PlayerChatListener.kt:57-61 | true exactly when some configured prefix starts the message |
| PlayerChatListener.NoPrefixFiltersNothing | src/main/kotlin/cn/esuny/chatForward/listeners/PlayerChatListener.kt:57-61 | with no prefixes configured no message is a command |
| PlayerChatListener.EmptyPrefixFiltersEverything | src/main/kotlin/cn/esuny/chatForward/listeners/PlayerChatListener.kt:57-61 | an empty prefix makes every message a command |
| PlayerChatListener.ChatEventToForward | src/main/kotlin/cn/esuny/chatForward/listeners/PlayerChatListener.kt:23-51 | a command, or a player on no server, forwards nothing; otherwise one chat event with the user name, the unmodified message and the current server |
| PlayerChatListener.OnPlayerChat | src/main/kotlin/cn/esuny/chatForward/listeners/PlayerChatListener.kt:23-51 | at most one frame goes out, and only the chosen chat event |
| PlayerSwitchServerListener.QuoteFreeRun | src/main/kotlin/cn/esuny/chatForward/listeners/PlayerSwitchServerListener.kt:70 | the greedy `[^']+` stops at the first quote or at the end |
| PlayerSwitchServerListener.RunLength | src/main/kotlin/cn/esuny/chatForward/listeners/PlayerSwitchServerListener.kt:70 | a quote-free run closed by a quote is exactly what the greedy group consumes |
| PlayerSwitchServerListener.MatchAtIffIsMatch | src/main/kotlin/cn/esuny/chatForward/listeners/PlayerSwitchServerListener.kt:70-72 | the scanner's match at a position is exactly a non-empty, quote-free name after `name='` and before a quote |
| PlayerSwitchServerListener.FirstMatchFrom | src/main/kotlin/cn/esuny/chatForward/listeners/PlayerSwitchServerListener.kt:71 | `find` reports the leftmost position where the pattern matches, or none |
| PlayerSwitchServerListener.ParseServerName | src/main/kotlin/cn/esuny/chatForward/listeners/PlayerSwitchServerListener.kt:66-72 | a returned name is non-empty, quote-free and matched in the text; null only when nothing matches |
| PlayerSwitchServerListener.FirstMatchIsMatch | src/main/kotlin/cn/esuny/chatForward/listeners/PlayerSwitchServerListener.kt:70-72 | the first match found is a match of the pattern, and finding none means there is none |
| PlayerSwitchServerListener.ParseServerNameIsLeftmost | src/main/kotlin/cn/esuny/chatForward/listeners/PlayerSwitchServerListener.kt:70-72 | if the pattern matches anywhere a name comes back, taken from a match no later than any other |
| PlayerSwitchServerListener.GetServerName | src/main/kotlin/cn/esuny/chatForward/listeners/PlayerSwitchServerListener.kt:58-78 | the reflected name when reflection works, otherwise the text fallback |
| PlayerSwitchServerListener.HandoffEventToForward | src/main/kotlin/cn/esuny/chatForward/listeners/PlayerSwitchServerListener.kt:21-52 | no event on a first connection; an event exactly when both names resolve, carrying user, old server and new server |
| PlayerSwitchServerListener.OnPlayerSwitchServer | src/main/kotlin/cn/esuny/chatForward/listeners/PlayerSwitchServerListener.kt:21-52 | at most one frame goes out, and only the chosen handoff event |
| ReloadCommand.Execute | src/main/kotlin/cn/esuny/chatForward/command/ReloadCommand.kt:18-53 | the reload runs exactly when the first argument is `reload`; green only on success, red on failure or exception, yellow usage otherwise |
| ReloadCommand.Suggest | src/main/kotlin/cn/esuny/chatForward/command/ReloadCommand.kt:58-65 | `reload` is offered exactly for no argument or one argument that is a prefix of `reload`, and nothing else is ever offered |
| ReloadCommand.Complete | src/main/kotlin/cn/esuny/chatForward/command/ReloadCommand.kt:62 | accepting a completion replaces the word being typed |
| ReloadCommand.SuggestionPassesGate | src/main/kotlin/cn/esuny/chatForward/command/ReloadCommand.kt:22-62 | an accepted suggestion always passes the gate of `execute` |
| ReloadCommand.NoSuggestionAfterTwoArguments | src/main/kotlin/cn/esuny/chatForward/command/ReloadCommand.kt:63 | two or more arguments get no suggestion |
| ReloadCommand.HasPermission | src/main/kotlin/cn/esuny/chatForward/command/ReloadCommand.kt:70-74 | allowed exactly when the source holds one of the two permissions |
| ReloadCommand.GrantedReloadPermissions | src/main/kotlin/cn/esuny/chatForward/command/ReloadCommand.kt:72-73 | holding one of the two permissions is sharing a member with the pair |
| ReloadCommand.PermissionMonotone | src/main/kotlin/cn/esuny/chatForward/command/ReloadCommand.kt:70-74 | more permissions never take the command away |

## Left out

- JSON text: fastjson serialisation and parsing are not modelled. Envelopes are maps from
  keys to JSON values. Parsing is a parameter that gives an object, null, or an
  exception. `toJsonString`, `prettyJson`, `isValidJson`, `getInt` and `getBoolean` are
  not part of this model.
- JsonUtil.ValueString: fastjson's `getString` of a nested array or object gives its
  JSON text; here it gives null, because serialisation is out of scope.
- MessageHandler.ServersField: a `servers` value that is a string is parsed as an array
  by fastjson; here it counts as not an array, so the broadcast sends nothing.
- Strings are sequences of Unicode scalar values, not UTF-16 units. A `§` pair built
  from a surrogate pair is not distinguished.
- KotlinText.LowercaseChar models `lowercaseChar` only as far as the code tables can
  tell. ASCII capitals and the Kelvin sign are lowered; every other character stays
  unchanged.
- Threads and timers are not modelled:
  - executors, `Thread.sleep`, `AtomicBoolean`, and concurrent callbacks;
  - the one-second wait in `connect`, which becomes the `ConnectOutcome` parameter;
  - the blocking `future.get`, which is split into `Pool.Register` and
    `Pool.FinishWait`;
  - timer firings, which are explicit method calls.
- `System.currentTimeMillis` and `UUID.randomUUID` are parameters (`now`, `requestId`).
- The shared `scheduledExecutor` field is one slot holding the job it runs.
  - `startHeartbeatTimeoutCheck` replaces the response-cleanup executor, because
    the field is overwritten. The replaced executor is not tracked.
  - The periodic `cleanTimeoutResponses` therefore has no caller in the model.
- The Java-WebSocket library is an `isOpen` flag and a `sent` sequence.
  - Its `isClosing` state is the `closing` parameter of `OnClose`.
  - Its own `reconnect` and `connect` are the `reconnectThrows` parameter and the
    `ConnectOutcome`.
  - A send on a closed socket, which the library would throw on, cannot happen in
    `flushMessageQueue`. The model's flush only runs while open. A send failure is
    the `failAt` parameter.
- WebSocketService.Service.Connect does not close the client it replaces, just like
  the source. That client's later callbacks are not modelled.
- WebSocketService.Service.Connect: the `isConnecting` guard is modelled only as a
  possible entry state. Concurrent calls are not modelled, and `Connect` clears the
  flag before it returns, so no sequence of the model's own calls reaches the guard.
- WebSocketService.Service.SendRequest stops where the caller starts waiting. The wait
  itself is `Pool.FinishWait`. A response that arrives between the send and the
  registration is lost in the source. The model registers after the send, like the
  source, but does not interleave callbacks.
- Velocity is not modelled. The proxy is a snapshot: a map from server name to user
  names, plus all players. Sending a component is a `Delivery`. Event objects are
  parameters: the player's current server, the previous server, and a server handle
  that either reflects or only has its `toString` text.
- `getPlayerServerName` exceptions are covered by its null result. The reflection call
  of `getServerName` is the `Reflected` case and is not modelled further.
- Logging is not modelled.
- Integer width: `Long` and `Int` overflow is not modelled. Times, intervals, counts and
  the reconnect delay are unbounded integers.
- ChatForward.kt wiring is not part of this model. ConfigManager's YAML loading, saving
  and reloading are not part of this model either; `plugin.reloadConfig()` is the
  `ReloadOutcome` parameter of `ReloadCommand.Execute`.
- PlayerJoinListener.kt and PlayerLeaveListener.kt are not part of this model. They
  forward a user name to the service's join and left events, which are modelled.
