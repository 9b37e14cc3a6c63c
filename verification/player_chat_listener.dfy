/** `PlayerChatListener`: forwards a player's chat line to the bridge unless it is an
    MCDR command or the player is on no server. */
module PlayerChatListener {
  import opened KotlinText
  import opened JsonUtil
  import opened PluginConfig
  import opened WebSocketService

  /** `startsWithMcdrCommandPrefix`: some configured prefix starts the message. */
  function StartsWithMcdrCommandPrefix(prefixes: seq<string>, message: string): (r: bool)
    ensures r <==> exists i :: 0 <= i < |prefixes| && StartsWith(message, prefixes[i])
  {
    if prefixes == [] then false
    else if StartsWith(message, prefixes[0]) then true
    else
      var rest := StartsWithMcdrCommandPrefix(prefixes[1..], message);
      assert forall i | 1 <= i < |prefixes| :: prefixes[i] == prefixes[1..][i - 1];
      rest
  }

  /** With no prefixes configured, nothing counts as a command. */
  lemma NoPrefixFiltersNothing(message: string)
    ensures !StartsWithMcdrCommandPrefix([], message)
  {
  }

  /** An empty prefix in the list makes every message a command. */
  lemma EmptyPrefixFiltersEverything(prefixes: seq<string>, message: string)
    requires "" in prefixes
    ensures StartsWithMcdrCommandPrefix(prefixes, message)
  {
    var i :| 0 <= i < |prefixes| && prefixes[i] == "";
    assert StartsWith(message, prefixes[i]);
  }

  /** The decision of `onPlayerChat`: the chat event to send, if any. A command is
      skipped, and so is a player whose current server cannot be found. */
  function ChatEventToForward(config: ChatConfig, username: string, message: string, currentServer: Option<string>): (r: Option<Envelope>)
    ensures StartsWithMcdrCommandPrefix(config.mcdrCommandPrefix, message) ==> r == None
    ensures currentServer.None? ==> r == None
    ensures !StartsWithMcdrCommandPrefix(config.mcdrCommandPrefix, message) && currentServer.Some? ==>
      && r.Some?
      && GetString(r.value, "Mode", "") == ModeChat
      && GetString(r.value, "player", "") == username
      && GetString(r.value, "message", "") == message
      && GetString(r.value, "server", "") == currentServer.value
  {
    if StartsWithMcdrCommandPrefix(config.mcdrCommandPrefix, message) then None
    else match currentServer
      case None => None
      case Some(server) => Some(BuildPlayerChatEvent(username, message, server))
  }

  /** `onPlayerChat`: at most one frame goes out through the service, and only the one
      `ChatEventToForward` chooses; a skipped message leaves the connection alone. */
  method OnPlayerChat(service: Service, config: ChatConfig, username: string, message: string, currentServer: Option<string>)
    returns (forwarded: bool)
    requires service.Valid()
    modifies service.client
    ensures service.Valid()
    ensures ChatEventToForward(config, username, message, currentServer).None? ==>
      !forwarded && (service.client != null ==> unchanged(service.client))
    ensures ChatEventToForward(config, username, message, currentServer).Some? ==>
      forwarded == old(service.client != null && service.client.isOpen)
    ensures forwarded ==>
      service.client.sent == old(service.client.sent) + [ChatEventToForward(config, username, message, currentServer).value]
  {
    var event := ChatEventToForward(config, username, message, currentServer);
    if event.None? {
      return false;
    }
    var server := currentServer.value;
    forwarded := service.SendPlayerChatEvent(username, message, server);
  }
}
