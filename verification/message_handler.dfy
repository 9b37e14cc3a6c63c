/** `MessageHandler`: what the proxy does with one inbound envelope from the chat
    server. The Velocity proxy is a snapshot (`Proxy`): the registered servers with the
    user names connected to each, and all connected players. Sending a chat component to
    a server is a `Delivery`; the reply the handler hands to `send_dict` is `reply`. */
module MessageHandler {
  import opened KotlinText
  import opened JsonUtil
  import opened PluginConfig

  /** `server.sendMessage(Component.text(text))` on the registered server `server`. */
  datatype Delivery = Delivery(server: string, text: string)

  /** The proxy as the handler sees it: `getServer(name)` is `name in servers`, and
      `playersConnected` of a server is `servers[name]`. */
  datatype Proxy = Proxy(servers: map<string, seq<string>>, allPlayers: seq<string>)

  /** Everything one envelope causes: chat deliveries, in order, and at most one reply. */
  datatype Outcome = Outcome(deliveries: seq<Delivery>, reply: Option<Envelope>)

  const NoEffect := Outcome([], None)

  function ModeOf(json: Envelope): string {
    GetString(json, "Mode", "")
  }

  function ActionOf(json: Envelope): string {
    GetString(json, "action", "")
  }

  /** `serverPrefixMapping[name] ?: name`. */
  function DisplayName(config: Config, name: string): (r: string)
    ensures name in Keys(config.chat.serverPrefixMapping) ==>
      exists i :: 0 <= i < |config.chat.serverPrefixMapping| && config.chat.serverPrefixMapping[i] == (name, r)
    ensures name !in Keys(config.chat.serverPrefixMapping) ==> r == name
  {
    Lookup(config.chat.serverPrefixMapping, name).GetOr(name)
  }

  function ChatText(config: Config, player: string, message: string): string {
    config.chat.mainPrefix + " \U{A7}r<" + player + "> \U{A7}7" + message
  }

  function JoinText(config: Config, player: string, serverPrefix: string): string {
    config.chat.mainPrefix + " §a玩家 " + player + " §a加入了服务器 §r" + serverPrefix
  }

  function LeftText(config: Config, player: string): string {
    config.chat.mainPrefix + " §c玩家 " + player + " §c离开了服务器"
  }

  function HandoffText(config: Config, player: string, fromPrefix: string, toPrefix: string): string {
    config.chat.mainPrefix + " §e玩家 " + player + " §e从 §r" + fromPrefix + " §e切换到 §r" + toPrefix
  }

  /** `broadcastToServer`: a server the proxy does not know is skipped. */
  function BroadcastToServer(proxy: Proxy, name: string, text: string): (r: seq<Delivery>)
    ensures |r| <= 1
    ensures r != [] <==> name in proxy.servers
    ensures forall d | d in r :: d == Delivery(name, text)
  {
    if name in proxy.servers then [Delivery(name, text)] else []
  }

  /** `broadcastToServers(text, *names)` and the `forEach` of `broadcastToAllServers`:
      one delivery per known name, in the order of `names`. */
  function BroadcastToServers(proxy: Proxy, names: seq<string>, text: string): (r: seq<Delivery>)
    ensures |r| <= |names|
    ensures forall d | d in r :: d.text == text && d.server in names && d.server in proxy.servers
    ensures forall n | n in names && n in proxy.servers :: Delivery(n, text) in r
  {
    if names == [] then []
    else BroadcastToServer(proxy, names[0], text) + BroadcastToServers(proxy, names[1..], text)
  }

  /** When every name is known, the deliveries follow `names` one for one. */
  lemma {:induction false} BroadcastInOrder(proxy: Proxy, names: seq<string>, text: string)
    requires forall i | 0 <= i < |names| :: names[i] in proxy.servers
    ensures |BroadcastToServers(proxy, names, text)| == |names|
    ensures forall i | 0 <= i < |names| :: BroadcastToServers(proxy, names, text)[i] == Delivery(names[i], text)
  {
    if names != [] {
      BroadcastInOrder(proxy, names[1..], text);
      var r := BroadcastToServers(proxy, names, text);
      assert r == [Delivery(names[0], text)] + BroadcastToServers(proxy, names[1..], text);
      forall i | 0 <= i < |names| ensures r[i] == Delivery(names[i], text) {
        if i > 0 {
          assert names[1..][i - 1] == names[i];
        }
      }
    }
  }

  /** `broadcastToAllServers`: every key of the prefix mapping, in map order. */
  function BroadcastToAllServers(config: Config, proxy: Proxy, text: string): (r: seq<Delivery>)
    ensures forall d | d in r :: d.text == text && d.server in Keys(config.chat.serverPrefixMapping) && d.server in proxy.servers
    ensures forall k | k in Keys(config.chat.serverPrefixMapping) && k in proxy.servers :: Delivery(k, text) in r
  {
    BroadcastToServers(proxy, Keys(config.chat.serverPrefixMapping), text)
  }

  /** `broadcastToSpecificServers`: the listed names that are mapping keys, in list
      order; a null entry (`Option.None`) is never a key. */
  function BroadcastToSpecificServers(config: Config, proxy: Proxy, names: seq<Option<string>>, text: string): (r: seq<Delivery>)
    ensures |r| <= |names|
    ensures forall d | d in r ::
      d.text == text && Some(d.server) in names && d.server in Keys(config.chat.serverPrefixMapping) && d.server in proxy.servers
    ensures forall n | Some(n) in names && n in Keys(config.chat.serverPrefixMapping) && n in proxy.servers :: Delivery(n, text) in r
  {
    if names == [] then []
    else
      var head := match names[0]
        case Some(n) => if n in Keys(config.chat.serverPrefixMapping) then BroadcastToServer(proxy, n, text) else []
        case None => [];
      var rest := BroadcastToSpecificServers(config, proxy, names[1..], text);
      assert forall o | o in names[1..] :: o in names;
      assert forall n | Some(n) in names && Some(n) != names[0] :: Some(n) in names[1..];
      head + rest
  }

  /** The listed names that are mapping keys, in list order, duplicates kept: the
      names the `forEach` of `broadcastToSpecificServers` passes its filter with. */
  function KeyedNames(config: Config, names: seq<Option<string>>): (r: seq<string>)
    ensures |r| <= |names|
    ensures forall n | n in r :: Some(n) in names && n in Keys(config.chat.serverPrefixMapping)
    ensures forall n | Some(n) in names && n in Keys(config.chat.serverPrefixMapping) :: n in r
  {
    if names == [] then []
    else
      var head := match names[0]
        case Some(n) => if n in Keys(config.chat.serverPrefixMapping) then [n] else []
        case None => [];
      assert forall o | o in names[1..] :: o in names;
      assert forall n | Some(n) in names && Some(n) != names[0] :: Some(n) in names[1..];
      head + KeyedNames(config, names[1..])
  }

  /** When every entry is a mapping key, the filter keeps them all, one for one and in
      list order. */
  lemma {:induction false} KeyedNamesKeepsAll(config: Config, names: seq<Option<string>>)
    requires forall i | 0 <= i < |names| :: names[i].Some? && names[i].value in Keys(config.chat.serverPrefixMapping)
    ensures |KeyedNames(config, names)| == |names|
    ensures forall i | 0 <= i < |names| :: KeyedNames(config, names)[i] == names[i].value
  {
    if names != [] {
      var rest := names[1..];
      assert forall i | 0 <= i < |rest| :: rest[i] == names[i + 1];
      KeyedNamesKeepsAll(config, rest);
      var r := KeyedNames(config, names);
      assert r == [names[0].value] + KeyedNames(config, rest);
    }
  }

  /** `broadcastToSpecificServers` is `broadcastToServers` over the keyed names, so it
      delivers in list order, one delivery per keyed entry the proxy has. */
  lemma {:induction false} SpecificIsKeyedBroadcast(config: Config, proxy: Proxy, names: seq<Option<string>>, text: string)
    ensures BroadcastToSpecificServers(config, proxy, names, text) == BroadcastToServers(proxy, KeyedNames(config, names), text)
  {
    if names != [] {
      SpecificIsKeyedBroadcast(config, proxy, names[1..], text);
      var tail := KeyedNames(config, names[1..]);
      if names[0].Some? && names[0].value in Keys(config.chat.serverPrefixMapping) {
        var keyed := [names[0].value] + tail;
        assert KeyedNames(config, names) == keyed;
        assert keyed[0] == names[0].value && keyed[1..] == tail;
      } else {
        assert KeyedNames(config, names) == tail;
      }
    }
  }

  /** When the proxy has every keyed name, `broadcastToSpecificServers` delivers to
      them one for one, in list order. */
  lemma SpecificBroadcastInOrder(config: Config, proxy: Proxy, names: seq<Option<string>>, text: string)
    requires forall n | Some(n) in names && n in Keys(config.chat.serverPrefixMapping) :: n in proxy.servers
    ensures var keyed := KeyedNames(config, names);
      var r := BroadcastToSpecificServers(config, proxy, names, text);
      && |r| == |keyed|
      && forall i | 0 <= i < |keyed| :: r[i] == Delivery(keyed[i], text)
  {
    var keyed := KeyedNames(config, names);
    SpecificIsKeyedBroadcast(config, proxy, names, text);
    assert forall i | 0 <= i < |keyed| :: keyed[i] in proxy.servers by {
      forall i | 0 <= i < |keyed| ensures keyed[i] in proxy.servers {
        assert keyed[i] in keyed;
      }
    }
    BroadcastInOrder(proxy, keyed, text);
  }

  /** `handlePlayerChatEvent`: the chat line goes to the sender's own server only, and
      its text does not use the server's display prefix. */
  function HandlePlayerChatEvent(json: Envelope, config: Config, proxy: Proxy): (r: seq<Delivery>)
    ensures var player := GetString(json, "player", "");
      var message := GetString(json, "message", "");
      var server := GetString(json, "server", "");
      && |r| <= 1
      && (r != [] <==> IsNotBlank(player) && IsNotBlank(message) && server in proxy.servers)
      && forall d | d in r :: d.server == server && d.text == ChatText(config, player, message)
  {
    var player := GetString(json, "player", "");
    var message := GetString(json, "message", "");
    var server := GetString(json, "server", "");
    if IsNotBlank(player) && IsNotBlank(message) then
      BroadcastToServers(proxy, [server], ChatText(config, player, message))
    else []
  }

  /** `handlePlayerJoinEvent`: the notice goes to the joined server and names it by its
      display prefix. */
  function HandlePlayerJoinEvent(json: Envelope, config: Config, proxy: Proxy): (r: seq<Delivery>)
    ensures var player := GetString(json, "player", "");
      var server := GetString(json, "server", "");
      && |r| <= 1
      && (r != [] <==> IsNotBlank(player) && IsNotBlank(server) && server in proxy.servers)
      && forall d | d in r :: d.server == server && d.text == JoinText(config, player, DisplayName(config, server))
  {
    var player := GetString(json, "player", "");
    var server := GetString(json, "server", "");
    if IsNotBlank(player) && IsNotBlank(server) then
      BroadcastToServers(proxy, [server], JoinText(config, player, DisplayName(config, server)))
    else []
  }

  /** `handlePlayerLeftEvent`: the notice goes to every mapped server and no other. */
  function HandlePlayerLeftEvent(json: Envelope, config: Config, proxy: Proxy): (r: seq<Delivery>)
    ensures var player := GetString(json, "player", "");
      && (IsBlank(player) ==> r == [])
      && (forall d | d in r :: d.server in Keys(config.chat.serverPrefixMapping) && d.text == LeftText(config, player))
      && (IsNotBlank(player) ==>
            forall k | k in Keys(config.chat.serverPrefixMapping) && k in proxy.servers :: Delivery(k, LeftText(config, player)) in r)
  {
    var player := GetString(json, "player", "");
    if IsNotBlank(player) then BroadcastToAllServers(config, proxy, LeftText(config, player)) else []
  }

  /** `handlePlayerHandoffEvent`: the notice goes to the server left, then to the server
      joined, naming both by their display prefixes. */
  function HandlePlayerHandoffEvent(json: Envelope, config: Config, proxy: Proxy): (r: seq<Delivery>)
    ensures var player := GetString(json, "player", "");
      var from := GetString(json, "fromserver", "");
      var to := GetString(json, "toserver", "");
      var text := HandoffText(config, player, DisplayName(config, from), DisplayName(config, to));
      && |r| <= 2
      && (!(IsNotBlank(player) && IsNotBlank(from) && IsNotBlank(to)) ==> r == [])
      && (forall d | d in r :: d.text == text && (d.server == from || d.server == to))
      && (IsNotBlank(player) && IsNotBlank(from) && IsNotBlank(to) && from in proxy.servers && to in proxy.servers ==>
            r == [Delivery(from, text), Delivery(to, text)])
  {
    var player := GetString(json, "player", "");
    var from := GetString(json, "fromserver", "");
    var to := GetString(json, "toserver", "");
    if IsNotBlank(player) && IsNotBlank(from) && IsNotBlank(to) then
      var text := HandoffText(config, player, DisplayName(config, from), DisplayName(config, to));
      BroadcastInOrderPair(proxy, from, to, text);
      BroadcastToServers(proxy, [from, to], text)
    else []
  }

  lemma BroadcastInOrderPair(proxy: Proxy, a: string, b: string, text: string)
    ensures a in proxy.servers && b in proxy.servers ==>
      BroadcastToServers(proxy, [a, b], text) == [Delivery(a, text), Delivery(b, text)]
  {
    if a in proxy.servers && b in proxy.servers {
      BroadcastInOrder(proxy, [a, b], text);
    }
  }

  /** `jsonArray.getString(i)` for every element. */
  function ArrayStrings(items: seq<JsonValue>): (r: seq<Option<string>>)
    ensures |r| == |items|
    ensures forall i | 0 <= i < |items| :: r[i] == ValueString(items[i])
  {
    seq(|items|, i requires 0 <= i < |items| => ValueString(items[i]))
  }

  /** `json.getJSONArray("servers")` read as strings, with null read as the empty list;
      `None` when the stored value is not an array and fastjson throws. */
  function ServersField(json: Envelope): (r: Option<seq<Option<string>>>)
    ensures "servers" !in json || json["servers"] == JNull ==> r == Some([])
    ensures "servers" in json && json["servers"].JArr? ==> r == Some(ArrayStrings(json["servers"].items))
    ensures r.None? <==> "servers" in json && json["servers"] != JNull && !json["servers"].JArr?
  {
    if "servers" !in json then Some([])
    else match json["servers"]
      case JNull => Some([])
      case JArr(items) => Some(ArrayStrings(items))
      case _ => None
  }

  /** `handleBroadcastMessage`: a non-blank message goes to every mapped server for
      target "all" (the default), to the listed mapped servers for "specific_servers",
      and nowhere for any other target. */
  function HandleBroadcastMessage(json: Envelope, config: Config, proxy: Proxy): (r: seq<Delivery>)
    ensures var message := GetString(json, "message", "");
      var target := GetString(json, "target", "all");
      && (IsBlank(message) ==> r == [])
      && (forall d | d in r :: d.text == message && d.server in Keys(config.chat.serverPrefixMapping) && d.server in proxy.servers)
      && (IsNotBlank(message) && target == "all" ==>
            forall k | k in Keys(config.chat.serverPrefixMapping) && k in proxy.servers :: Delivery(k, message) in r)
      && (target == "specific_servers" && ServersField(json).Some? ==>
            forall d | d in r :: Some(d.server) in ServersField(json).value)
      && (IsNotBlank(message) && target == "specific_servers" && ServersField(json).Some? ==>
            forall n | Some(n) in ServersField(json).value && n in Keys(config.chat.serverPrefixMapping) && n in proxy.servers ::
              Delivery(n, message) in r)
      && (IsNotBlank(message) && target == "specific_servers" && ServersField(json).Some? ==>
            r == BroadcastToServers(proxy, KeyedNames(config, ServersField(json).value), message))
      && (target == "specific_servers" && ServersField(json).None? ==> r == [])
      && (target != "all" && target != "specific_servers" ==> r == [])
  {
    var message := GetString(json, "message", "");
    var target := GetString(json, "target", "all");
    if !IsNotBlank(message) then []
    else if target == "all" then BroadcastToAllServers(config, proxy, message)
    else if target == "specific_servers" then
      match ServersField(json)
      case Some(names) =>
        SpecificIsKeyedBroadcast(config, proxy, names, message);
        BroadcastToSpecificServers(config, proxy, names, message)
      case None => []
    else []
  }

  /** `getPlayerList`: everyone for "all", the server's players for a known server, and
      nobody for an unknown one. */
  function GetPlayerList(proxy: Proxy, server: string): (r: seq<string>)
    ensures server == "all" ==> r == proxy.allPlayers
    ensures server != "all" && server in proxy.servers ==> r == proxy.servers[server]
    ensures server != "all" && server !in proxy.servers ==> r == []
  {
    if server == "all" then proxy.allPlayers
    else if server in proxy.servers then proxy.servers[server]
    else []
  }

  /** A list of user names as a JSON array of strings. */
  function NamesArray(names: seq<string>): (r: JsonValue)
    ensures r.JArr? && |r.items| == |names|
    ensures forall i | 0 <= i < |names| :: r.items[i] == JStr(names[i])
  {
    JArr(seq(|names|, i requires 0 <= i < |names| => JStr(names[i])))
  }

  /** `handlePlayerListRequest`: a reply exactly when the request carries an echo; the
      reply names the server asked about (default "all"), lists its players, counts
      them and returns the echo unchanged. */
  function HandlePlayerListRequest(json: Envelope, proxy: Proxy): (r: Option<Envelope>)
    ensures var server := GetString(json, "server", "all");
      var echo := GetString(json, "echo", "");
      && (r.Some? <==> IsNotBlank(echo))
      && (r.Some? ==>
            && r.value.Keys == {"action", "server", "players", "count", "echo"}
            && r.value["action"] == JStr("player_list_response")
            && r.value["server"] == JStr(server)
            && r.value["echo"] == JStr(echo)
            && r.value["players"] == NamesArray(GetPlayerList(proxy, server))
            && r.value["count"] == JNum(|r.value["players"].items|))
  {
    var server := GetString(json, "server", "all");
    var requestId := GetString(json, "echo", "");
    if IsNotBlank(requestId) then
      var playerList := GetPlayerList(proxy, server);
      Some(map[
        "action" := JStr("player_list_response"),
        "server" := JStr(server),
        "players" := NamesArray(playerList),
        "count" := JNum(|playerList|),
        "echo" := JStr(requestId)])
    else None
  }

  /** One server's entry in the status report. */
  function ServerEntry(proxy: Proxy, name: string): (r: JsonValue)
    ensures r.JObj? && r.fields.Keys == {"online", "player_count", "players"}
    ensures r.fields["online"] == JBool(name in proxy.servers)
    ensures r.fields["players"].JArr? && r.fields["player_count"] == JNum(|r.fields["players"].items|)
    ensures name !in proxy.servers ==> r.fields["player_count"] == JNum(0) && r.fields["players"] == JArr([])
  {
    var players := if name in proxy.servers then proxy.servers[name] else [];
    assert NamesArray([]).items == [];
    JObj(map["online" := JBool(name in proxy.servers), "player_count" := JNum(|players|), "players" := NamesArray(players)])
  }

  /** `getServerStatus`: one entry per mapped server, the proxy's player count, and the
      time of the report. */
  function GetServerStatus(config: Config, proxy: Proxy, now: int): (r: map<string, JsonValue>)
    ensures r.Keys == {"total_players", "servers", "online", "timestamp"}
    ensures r["total_players"] == JNum(|proxy.allPlayers|) && r["online"] == JBool(true) && r["timestamp"] == JNum(now)
    ensures r["servers"].JObj?
    ensures forall k :: k in r["servers"].fields <==> k in Keys(config.chat.serverPrefixMapping)
    ensures forall k | k in r["servers"].fields :: r["servers"].fields[k] == ServerEntry(proxy, k)
  {
    var servers := map k | k in Keys(config.chat.serverPrefixMapping) :: ServerEntry(proxy, k);
    map[
      "total_players" := JNum(|proxy.allPlayers|),
      "servers" := JObj(servers),
      "online" := JBool(true),
      "timestamp" := JNum(now)]
  }

  /** `handleServerStatusRequest`: a reply exactly when the request carries an echo. */
  function HandleServerStatusRequest(json: Envelope, config: Config, proxy: Proxy, now: int): (r: Option<Envelope>)
    ensures var echo := GetString(json, "echo", "");
      && (r.Some? <==> IsNotBlank(echo))
      && (r.Some? ==>
            && r.value.Keys == {"action", "status", "echo"}
            && r.value["action"] == JStr("server_status_response")
            && r.value["status"] == JObj(GetServerStatus(config, proxy, now))
            && r.value["echo"] == JStr(echo))
  {
    var requestId := GetString(json, "echo", "");
    if IsNotBlank(requestId) then
      Some(map[
        "action" := JStr("server_status_response"),
        "status" := JObj(GetServerStatus(config, proxy, now)),
        "echo" := JStr(requestId)])
    else None
  }

  /** `handleModeMessage`: player events from the chat server cause deliveries only;
      `PlayerListUpdate` and unknown modes do nothing. */
  function HandleModeMessage(mode: string, json: Envelope, config: Config, proxy: Proxy): (o: Outcome)
    ensures o.reply == None
    ensures mode != ModeChat && mode != ModeJoin && mode != ModeLeft && mode != ModeHandoff ==> o.deliveries == []
    ensures forall d | d in o.deliveries :: d.server in proxy.servers
  {
    if mode == ModeChat then Outcome(HandlePlayerChatEvent(json, config, proxy), None)
    else if mode == ModeJoin then Outcome(HandlePlayerJoinEvent(json, config, proxy), None)
    else if mode == ModeLeft then Outcome(HandlePlayerLeftEvent(json, config, proxy), None)
    else if mode == ModeHandoff then Outcome(HandlePlayerHandoffEvent(json, config, proxy), None)
    else NoEffect
  }

  /** `handleActionMessage`: only `broadcast` delivers, only `player_list` and
      `server_status` reply; `command`, `auth`, `ping` and unknown actions do nothing. */
  function HandleActionMessage(action: string, json: Envelope, config: Config, proxy: Proxy, now: int): (o: Outcome)
    ensures action != "broadcast" && action != "player_list" && action != "server_status" ==> o == NoEffect
    ensures o.deliveries != [] ==> action == "broadcast" && o.reply == None
    ensures o.reply.Some? ==> action == "player_list" || action == "server_status"
    ensures forall d | d in o.deliveries :: d.server in proxy.servers
  {
    if action == "broadcast" then Outcome(HandleBroadcastMessage(json, config, proxy), None)
    else if action == "player_list" then Outcome([], HandlePlayerListRequest(json, proxy))
    else if action == "server_status" then Outcome([], HandleServerStatusRequest(json, config, proxy, now))
    else NoEffect
  }

  /** `processJsonMessage`: a non-blank `Mode` wins, then a non-blank `action`;
      anything else is dropped. */
  function ProcessJsonMessage(json: Envelope, config: Config, proxy: Proxy, now: int): (o: Outcome)
    ensures IsBlank(ModeOf(json)) && IsBlank(ActionOf(json)) ==> o == NoEffect
    ensures IsNotBlank(ModeOf(json)) ==> o.reply == None
    ensures o.reply.Some? ==> ActionOf(json) == "player_list" || ActionOf(json) == "server_status"
    ensures o.reply.Some? ==> o.deliveries == [] && "echo" in o.reply.value && o.reply.value["echo"] == JStr(GetString(json, "echo", ""))
    ensures forall d | d in o.deliveries :: d.server in proxy.servers
  {
    var mode := ModeOf(json);
    var action := ActionOf(json);
    if IsNotBlank(mode) then HandleModeMessage(mode, json, config, proxy)
    else if IsNotBlank(action) then HandleActionMessage(action, json, config, proxy, now)
    else NoEffect
  }

  /** `handleMessage`: text that does not parse to an object does nothing. */
  function HandleMessage(message: string, parse: string -> ParseResult, config: Config, proxy: Proxy, now: int): (o: Outcome)
    ensures ParseObject(message, parse).None? ==> o == NoEffect
    ensures parse(message) == Parsed(Some(map[])) ==> o == NoEffect
  {
    match ParseObject(message, parse)
    case None => NoEffect
    case Some(json) => ProcessJsonMessage(json, config, proxy, now)
  }

  /** Reading a key other than the one overwritten gives the same text. */
  lemma GetStringOtherKey(json: Envelope, k: string, v: JsonValue, key: string, d: string)
    requires key != k
    ensures GetString(json[k := v], key, d) == GetString(json, key, d)
  {
  }

  /** A message with a non-blank `Mode` is a player event whatever its `action` says:
      setting `action` to anything leaves the outcome unchanged. */
  lemma ModeTakesPrecedence(json: Envelope, a: JsonValue, config: Config, proxy: Proxy, now: int)
    requires IsNotBlank(ModeOf(json))
    ensures ProcessJsonMessage(json["action" := a], config, proxy, now) == ProcessJsonMessage(json, config, proxy, now)
  {
    var json' := json["action" := a];
    GetStringOtherKey(json, "action", a, "Mode", "");
    GetStringOtherKey(json, "action", a, "player", "");
    GetStringOtherKey(json, "action", a, "message", "");
    GetStringOtherKey(json, "action", a, "server", "");
    GetStringOtherKey(json, "action", a, "fromserver", "");
    GetStringOtherKey(json, "action", a, "toserver", "");
  }

  /** The chat event the plugin sends upstream, when it comes back from the chat
      server, is delivered to its own server with the chat text and nothing else. */
  lemma ChatEventRoundTrip(player: string, message: string, server: string, config: Config, proxy: Proxy, now: int)
    requires IsNotBlank(player) && IsNotBlank(message) && server in proxy.servers
    ensures ProcessJsonMessage(BuildPlayerChatEvent(player, message, server), config, proxy, now)
      == Outcome([Delivery(server, ChatText(config, player, message))], None)
  {
    ModeTagsDistinct();
    var o := ProcessJsonMessage(BuildPlayerChatEvent(player, message, server), config, proxy, now);
    assert |o.deliveries| == 1 && o.deliveries[0] in o.deliveries;
  }

  /** Likewise for a join event: it reaches the joined server, named by its prefix. */
  lemma JoinEventRoundTrip(player: string, server: string, config: Config, proxy: Proxy, now: int)
    requires IsNotBlank(player) && IsNotBlank(server) && server in proxy.servers
    ensures ProcessJsonMessage(BuildPlayerJoinEvent(player, server), config, proxy, now)
      == Outcome([Delivery(server, JoinText(config, player, DisplayName(config, server)))], None)
  {
    ModeTagsDistinct();
    var o := ProcessJsonMessage(BuildPlayerJoinEvent(player, server), config, proxy, now);
    assert |o.deliveries| == 1 && o.deliveries[0] in o.deliveries;
  }

  /** A handoff event comes back as the notice to the old server, then the new one. */
  lemma HandoffEventRoundTrip(player: string, from: string, to: string, config: Config, proxy: Proxy, now: int)
    requires IsNotBlank(player) && IsNotBlank(from) && IsNotBlank(to)
    requires from in proxy.servers && to in proxy.servers
    ensures var text := HandoffText(config, player, DisplayName(config, from), DisplayName(config, to));
      ProcessJsonMessage(BuildPlayerHandoffEvent(player, from, to), config, proxy, now)
        == Outcome([Delivery(from, text), Delivery(to, text)], None)
  {
    ModeTagsDistinct();
  }

  /** A left event comes back as the leave notice to every mapped server the proxy knows,
      in the mapping's order. */
  lemma LeftEventRoundTrip(player: string, config: Config, proxy: Proxy, now: int)
    requires IsNotBlank(player)
    requires forall k | k in Keys(config.chat.serverPrefixMapping) :: k in proxy.servers
    ensures var o := ProcessJsonMessage(BuildPlayerLeftEvent(player), config, proxy, now);
      && o.reply == None
      && |o.deliveries| == |config.chat.serverPrefixMapping|
      && forall i | 0 <= i < |o.deliveries| ::
           o.deliveries[i] == Delivery(config.chat.serverPrefixMapping[i].0, LeftText(config, player))
  {
    ModeTagsDistinct();
    BroadcastInOrder(proxy, Keys(config.chat.serverPrefixMapping), LeftText(config, player));
  }
}
