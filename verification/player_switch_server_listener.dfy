/** `PlayerSwitchServerListener`: reports a player moving from one backend server to
    another, naming both servers. */
module PlayerSwitchServerListener {
  import opened KotlinText
  import opened JsonUtil
  import opened WebSocketService

  /** What `getServerName` can learn about a server object: either the reflective
      `getServerInfo().getName()` call succeeds and yields `name`, or it throws and only
      the object's `toString()` text is left to search. */
  datatype ServerHandle = Reflected(name: string) | Described(text: string)

  /** The literal part of the pattern `name='([^']+)'` in front of the group. */
  const NameOpen: string := "name='"

  /** `name` is matched by the pattern with its opening `name='` at position `p`: it
      follows `name='` there, is non-empty, has no `'`, and a `'` comes right after it. */
  ghost predicate IsMatch(s: string, p: int, name: string) {
    && 0 <= p && p + |NameOpen| + |name| < |s|
    && s[p..p + |NameOpen|] == NameOpen
    && s[p + |NameOpen|..p + |NameOpen| + |name|] == name
    && name != []
    && (forall k | 0 <= k < |name| :: name[k] != '\'')
    && s[p + |NameOpen| + |name|] == '\''
  }

  /** The length of the longest run of non-quote characters of `s` starting at `i`:
      the greedy `[^']+`. */
  function QuoteFreeRun(s: string, i: nat): (n: nat)
    requires i <= |s|
    ensures i + n <= |s|
    ensures forall k | i <= k < i + n :: s[k] != '\''
    ensures i + n < |s| ==> s[i + n] == '\''
    decreases |s| - i
  {
    if i == |s| || s[i] == '\'' then 0 else 1 + QuoteFreeRun(s, i + 1)
  }

  /** Whether the pattern matches with its opening at `p`, and what the group holds. */
  function MatchAt(s: string, p: nat): (r: Option<string>)
    requires p <= |s|
  {
    if p + |NameOpen| <= |s| && s[p..p + |NameOpen|] == NameOpen then
      var n := QuoteFreeRun(s, p + |NameOpen|);
      if n > 0 && p + |NameOpen| + n < |s| then Some(s[p + |NameOpen|..p + |NameOpen| + n]) else None
    else None
  }

  /** A run of `m` non-quote characters closed by a quote is exactly what the greedy
      `[^']+` consumes. */
  lemma {:induction false} RunLength(s: string, i: nat, m: nat)
    requires i + m < |s|
    requires forall k | i <= k < i + m :: s[k] != '\''
    requires s[i + m] == '\''
    ensures QuoteFreeRun(s, i) == m
    decreases m
  {
    if m > 0 {
      RunLength(s, i + 1, m - 1);
    }
  }

  /** `MatchAt` agrees with `IsMatch`: the greedy group is the one and only name the
      pattern can match at `p`. */
  lemma MatchAtIffIsMatch(s: string, p: nat, name: string)
    requires p <= |s|
    ensures MatchAt(s, p) == Some(name) <==> IsMatch(s, p, name)
  {
    var L := |NameOpen|;
    if IsMatch(s, p, name) {
      forall k | p + L <= k < p + L + |name| ensures s[k] != '\'' {
        assert s[k] == name[k - p - L];
      }
      RunLength(s, p + L, |name|);
    }
    if MatchAt(s, p) == Some(name) {
      forall k | 0 <= k < |name| ensures name[k] != '\'' {
        assert name[k] == s[p + L + k];
      }
    }
  }

  /** `Regex.find` from position `from` onward, as a position: the leftmost `p` at or
      after `from` where the pattern matches, or `|s| + 1` when there is none. */
  function FirstMatchFrom(s: string, from: nat): (p: nat)
    requires from <= |s|
    ensures from <= p <= |s| + 1
    ensures p <= |s| ==> MatchAt(s, p).Some?
    ensures forall q | from <= q < p && q <= |s| :: MatchAt(s, q).None?
    decreases |s| - from
  {
    if MatchAt(s, from).Some? then from
    else if from == |s| then |s| + 1
    else FirstMatchFrom(s, from + 1)
  }

  /** The string fallback of `getServerName`: the group of the first `name='X'` in the
      text, or null. */
  function ParseServerName(text: string): (r: Option<string>)
    ensures r.Some? ==> exists p :: IsMatch(text, p, r.value)
    ensures r.Some? ==> r.value != [] && forall k | 0 <= k < |r.value| :: r.value[k] != '\''
    ensures r.None? ==> forall p, name | 0 <= p <= |text| :: !IsMatch(text, p, name)
  {
    var p := FirstMatchFrom(text, 0);
    FirstMatchIsMatch(text);
    if p <= |text| then MatchAt(text, p) else None
  }

  /** What `FirstMatchFrom` finds from the start, restated with `IsMatch`. */
  lemma FirstMatchIsMatch(text: string)
    ensures var p := FirstMatchFrom(text, 0);
      && (p <= |text| ==> IsMatch(text, p, MatchAt(text, p).value))
      && (p > |text| ==> forall q, name | 0 <= q <= |text| :: !IsMatch(text, q, name))
  {
    var p := FirstMatchFrom(text, 0);
    if p <= |text| {
      MatchAtIffIsMatch(text, p, MatchAt(text, p).value);
    } else {
      forall q, name | 0 <= q <= |text| ensures !IsMatch(text, q, name) {
        MatchAtIffIsMatch(text, q, name);
      }
    }
  }

  /** The name `ParseServerName` returns comes from the leftmost place where the
      pattern matches at all. */
  lemma ParseServerNameIsLeftmost(text: string, q: nat, other: string)
    requires q <= |text| && IsMatch(text, q, other)
    ensures ParseServerName(text).Some?
    ensures exists p :: 0 <= p <= q && IsMatch(text, p, ParseServerName(text).value)
  {
    MatchAtIffIsMatch(text, q, other);
    var p := FirstMatchFrom(text, 0);
    FirstMatchIsMatch(text);
    assert p <= q;
  }

  /** `getServerName`. */
  function GetServerName(server: ServerHandle): (r: Option<string>)
    ensures server.Reflected? ==> r == Some(server.name)
    ensures server.Described? ==> r == ParseServerName(server.text)
  {
    match server
    case Reflected(name) => Some(name)
    case Described(text) => ParseServerName(text)
  }

  /** The decision of `onPlayerSwitchServer`: the handoff event to send, if any. A
      first connection (no previous server) reports nothing, and neither does a switch
      where either name cannot be found. */
  function HandoffEventToForward(username: string, previous: Option<ServerHandle>, next: ServerHandle): (r: Option<Envelope>)
    ensures previous.None? ==> r == None
    ensures r.Some? <==> previous.Some? && GetServerName(previous.value).Some? && GetServerName(next).Some?
    ensures r.Some? ==>
      && GetString(r.value, "Mode", "") == ModeHandoff
      && GetString(r.value, "player", "") == username
      && GetString(r.value, "fromserver", "") == GetServerName(previous.value).value
      && GetString(r.value, "toserver", "") == GetServerName(next).value
  {
    match previous
    case None => None
    case Some(from) =>
      match (GetServerName(from), GetServerName(next))
      case (Some(fromName), Some(toName)) => Some(BuildPlayerHandoffEvent(username, fromName, toName))
      case _ => None
  }

  /** `onPlayerSwitchServer`: at most one frame goes out through the service, and only
      the one `HandoffEventToForward` chooses. */
  method OnPlayerSwitchServer(service: Service, username: string, previous: Option<ServerHandle>, next: ServerHandle)
    returns (forwarded: bool)
    requires service.Valid()
    modifies service.client
    ensures service.Valid()
    ensures HandoffEventToForward(username, previous, next).None? ==>
      !forwarded && (service.client != null ==> unchanged(service.client))
    ensures HandoffEventToForward(username, previous, next).Some? ==>
      forwarded == old(service.client != null && service.client.isOpen)
    ensures forwarded ==>
      service.client.sent == old(service.client.sent) + [HandoffEventToForward(username, previous, next).value]
  {
    if previous.None? {
      return false;
    }
    var fromName := GetServerName(previous.value);
    var toName := GetServerName(next);
    if fromName.None? || toName.None? {
      return false;
    }
    forwarded := service.SendPlayerHandoffEvent(username, fromName.value, toName.value);
  }
}
