/** The JSON side of the plugin: a parsed JSON object is a string-keyed map of JSON
    values (`Envelope`); fastjson's text parser and serialiser are not modelled. This
    module holds the outbound event builders and the `getString` accessor that every
    handler uses, and fixes the `Mode` tags that the outbound builders write and the
    inbound dispatcher matches on. */
module JsonUtil {
  import opened KotlinText

  datatype JsonValue =
    | JNull
    | JBool(b: bool)
    | JNum(n: int)
    | JStr(s: string)
    | JArr(items: seq<JsonValue>)
    | JObj(fields: map<string, JsonValue>)

  /** A parsed JSON object (fastjson's `JSONObject`, or a Kotlin `Map<String, Any>`). */
  type Envelope = map<string, JsonValue>

  const ModeChat := "PlayerChatEvent"
  const ModeLeft := "PlayerLeftEvent"
  const ModeJoin := "PlayerJoinEvent"
  const ModeHandoff := "PlayerHandoffEvent"

  /** fastjson's `getString` on one stored value (`JSONObject.getString` and
      `JSONArray.getString` agree): null for JSON null, the string itself for a string,
      and the printed value for a number or boolean. Nested arrays and objects print as
      JSON text, which is not modelled; they read as null here. */
  function ValueString(v: JsonValue): (r: Option<string>)
    ensures v == JNull ==> r == None
    ensures v.JStr? ==> r == Some(v.s)
    ensures v.JNum? ==> r == Some(IntText(v.n))
    ensures v.JBool? ==> r.Some? && r.value == (if v.b then "true" else "false")
  {
    match v
    case JNull => None
    case JStr(s) => Some(s)
    case JNum(n) => Some(IntText(n))
    case JBool(b) => Some(if b then "true" else "false")
    case JArr(_) => None
    case JObj(_) => None
  }

  /** `JSONObject.getString(key)`: null when the key is absent, otherwise the stored
      value read as text. */
  function GetOptString(json: Envelope, key: string): (r: Option<string>)
    ensures key !in json || json[key] == JNull ==> r == None
    ensures key in json && json[key].JStr? ==> r == Some(json[key].s)
    ensures key in json && json[key].JNum? ==> r == Some(IntText(json[key].n))
  {
    if key !in json then None else ValueString(json[key])
  }

  /** `JsonUtil.getString(json, key, defaultValue)`: the stored text, or the default
      when the key is absent or null. */
  function GetString(json: Envelope, key: string, defaultValue: string): (r: string)
    ensures key !in json || json[key] == JNull ==> r == defaultValue
    ensures key in json && json[key].JStr? ==> r == json[key].s
  {
    GetOptString(json, key).GetOr(defaultValue)
  }

  /** What `JSON.parseObject(text)` does with one input: yields an object (or null, for
      an input such as "null"), or throws. */
  datatype ParseResult = Parsed(obj: Option<Envelope>) | Threw

  /** `JsonUtil.parseObject(text)`: the parser's object, and null instead of an
      exception. `parse` stands for fastjson's parser. */
  function ParseObject(text: string, parse: string -> ParseResult): (r: Option<Envelope>)
    ensures parse(text).Threw? ==> r == None
    ensures r.Some? <==> parse(text).Parsed? && parse(text).obj.Some?
    ensures r.Some? ==> parse(text) == Parsed(r)
  {
    match parse(text)
    case Threw => None
    case Parsed(obj) => obj
  }

  /** `buildPlayerChatEvent`: the chat notification the proxy sends upstream. */
  function BuildPlayerChatEvent(player: string, message: string, server: string): (e: Envelope)
    ensures e.Keys == {"Mode", "player", "message", "server"}
    ensures GetString(e, "Mode", "") == ModeChat
    ensures GetString(e, "player", "") == player
    ensures GetString(e, "message", "") == message
    ensures GetString(e, "server", "") == server
  {
    map["Mode" := JStr(ModeChat), "player" := JStr(player), "message" := JStr(message), "server" := JStr(server)]
  }

  /** `buildPlayerLeftEvent`. */
  function BuildPlayerLeftEvent(player: string): (e: Envelope)
    ensures e.Keys == {"Mode", "player"}
    ensures GetString(e, "Mode", "") == ModeLeft
    ensures GetString(e, "player", "") == player
  {
    map["Mode" := JStr(ModeLeft), "player" := JStr(player)]
  }

  /** `buildPlayerJoinEvent`. */
  function BuildPlayerJoinEvent(player: string, server: string): (e: Envelope)
    ensures e.Keys == {"Mode", "player", "server"}
    ensures GetString(e, "Mode", "") == ModeJoin
    ensures GetString(e, "player", "") == player
    ensures GetString(e, "server", "") == server
  {
    map["Mode" := JStr(ModeJoin), "player" := JStr(player), "server" := JStr(server)]
  }

  /** `buildPlayerHandoffEvent`. */
  function BuildPlayerHandoffEvent(player: string, fromServer: string, toServer: string): (e: Envelope)
    ensures e.Keys == {"Mode", "player", "fromserver", "toserver"}
    ensures GetString(e, "Mode", "") == ModeHandoff
    ensures GetString(e, "player", "") == player
    ensures GetString(e, "fromserver", "") == fromServer
    ensures GetString(e, "toserver", "") == toServer
  {
    map["Mode" := JStr(ModeHandoff), "player" := JStr(player), "fromserver" := JStr(fromServer), "toserver" := JStr(toServer)]
  }

  /** The four event tags are pairwise different and none is blank, so a built event
      is always dispatched as a `Mode` message and to its own handler. */
  lemma ModeTagsDistinct()
    ensures IsNotBlank(ModeChat) && IsNotBlank(ModeLeft) && IsNotBlank(ModeJoin) && IsNotBlank(ModeHandoff)
    ensures ModeChat != ModeLeft && ModeChat != ModeJoin && ModeChat != ModeHandoff
    ensures ModeLeft != ModeJoin && ModeLeft != ModeHandoff && ModeJoin != ModeHandoff
  {
    assert !IsWhitespace(ModeChat[0]) && !IsWhitespace(ModeLeft[0]);
    assert !IsWhitespace(ModeJoin[0]) && !IsWhitespace(ModeHandoff[0]);
    assert ModeChat[6] != ModeLeft[6] && ModeChat[6] != ModeJoin[6] && ModeChat[6] != ModeHandoff[6];
    assert ModeLeft[6] != ModeJoin[6] && ModeLeft[6] != ModeHandoff[6] && ModeJoin[6] != ModeHandoff[6];
  }
}
