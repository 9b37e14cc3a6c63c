/** `ConfigManager.validateConfig`: the list of problems found in a configuration. Loading,
    saving and reloading the YAML file are file-system work and are not part of this model. */
module ConfigManager {
  import opened KotlinText
  import opened PluginConfig

  /** The message of check `k`, in the order the checks run. */
  function Message(k: nat): string
    requires k < CheckCount
  {
    match k
    case 0 => "WebSocket URL 不能为空"
    case 1 => "WebSocket Token 不能为空"
    case 2 => "重连间隔不能小于1000ms"
    case 3 => "最大重连尝试次数不能为负数"
    case 4 => "心跳间隔不能小于5000ms"
    case 5 => "心跳超时时间不能小于10000ms"
    case 6 => "主前缀不能为空"
    case 7 => "服务器前缀映射不能为空"
    case _ => "玩家个性设置文件名不能为空"
  }

  const CheckCount := 9

  /** Whether check `k` passes. */
  predicate Passes(c: Config, k: nat)
    requires k < CheckCount
  {
    match k
    case 0 => IsNotBlank(c.websocket.url)
    case 1 => IsNotBlank(c.websocket.token)
    case 2 => c.websocket.reconnectInterval >= 1000
    case 3 => c.websocket.maxReconnectAttempts >= 0
    case 4 => c.websocket.heartbeatInterval >= 5000
    case 5 => c.websocket.heartbeatTimeout >= 10000
    case 6 => IsNotBlank(c.chat.mainPrefix)
    case 7 => |c.chat.serverPrefixMapping| > 0
    case _ => IsNotBlank(c.storage.playerPersonalityFile)
  }

  /** A configuration the plugin accepts, stated field by field. */
  predicate IsValidConfig(c: Config) {
    && IsNotBlank(c.websocket.url) && IsNotBlank(c.websocket.token)
    && IsNotBlank(c.chat.mainPrefix) && IsNotBlank(c.storage.playerPersonalityFile)
    && c.websocket.reconnectInterval >= 1000
    && c.websocket.maxReconnectAttempts >= 0
    && c.websocket.heartbeatInterval >= 5000
    && c.websocket.heartbeatTimeout >= 10000
    && |c.chat.serverPrefixMapping| > 0
  }

  /** The messages of the failing checks among the first `k`, in check order. */
  function ErrorsUpTo(c: Config, k: nat): seq<string>
    requires k <= CheckCount
  {
    if k == 0 then []
    else Next(c, k - 1, ErrorsUpTo(c, k - 1))
  }

  /** Check `k` made after `errors`: its message is appended when it fails. */
  function Next(c: Config, k: nat, errors: seq<string>): seq<string>
    requires k < CheckCount
  {
    if Passes(c, k) then errors else errors + [Message(k)]
  }

  /** What `validateConfig` returns. */
  function ValidationErrors(c: Config): seq<string> {
    ErrorsUpTo(c, CheckCount)
  }

  /** `validateConfig`: nine checks in a row, each appending its message when it fails;
      the three groups are the WebSocket, chat and storage sections of the source. */
  method ValidateConfig(config: Config) returns (errors: seq<string>)
    ensures errors == ValidationErrors(config)
    ensures errors == [] <==> IsValidConfig(config)
  {
    errors := [];
    errors := ValidateWebSocket(config, errors);
    errors := ValidateChat(config, errors);
    errors := ValidateStorage(config, errors);
    AllChecks(config);
    NoErrorsIffValid(config);
  }

  /** The WebSocket section of `validateConfig`: checks 0 to 5. */
  method ValidateWebSocket(config: Config, errors0: seq<string>) returns (errors: seq<string>)
    ensures errors == Next(config, 5, Next(config, 4, Next(config, 3, Next(config, 2, Next(config, 1, Next(config, 0, errors0))))))
  {
    errors := errors0;
    if !IsNotBlank(config.websocket.url) {
      errors := errors + ["WebSocket URL 不能为空"];
    }
    assert errors == Next(config, 0, errors0);
    ghost var before := errors;
    if !IsNotBlank(config.websocket.token) {
      errors := errors + ["WebSocket Token 不能为空"];
    }
    assert errors == Next(config, 1, before);
    before := errors;
    if config.websocket.reconnectInterval < 1000 {
      errors := errors + ["重连间隔不能小于1000ms"];
    }
    assert errors == Next(config, 2, before);
    before := errors;
    if config.websocket.maxReconnectAttempts < 0 {
      errors := errors + ["最大重连尝试次数不能为负数"];
    }
    assert errors == Next(config, 3, before);
    before := errors;
    if config.websocket.heartbeatInterval < 5000 {
      errors := errors + ["心跳间隔不能小于5000ms"];
    }
    assert errors == Next(config, 4, before);
    before := errors;
    if config.websocket.heartbeatTimeout < 10000 {
      errors := errors + ["心跳超时时间不能小于10000ms"];
    }
    assert errors == Next(config, 5, before);
  }

  /** The chat section of `validateConfig`: checks 6 and 7. */
  method ValidateChat(config: Config, errors0: seq<string>) returns (errors: seq<string>)
    ensures errors == Next(config, 7, Next(config, 6, errors0))
  {
    errors := errors0;
    if !IsNotBlank(config.chat.mainPrefix) {
      errors := errors + ["主前缀不能为空"];
    }
    assert errors == Next(config, 6, errors0);
    ghost var before := errors;
    if |config.chat.serverPrefixMapping| == 0 {
      errors := errors + ["服务器前缀映射不能为空"];
    }
    assert errors == Next(config, 7, before);
  }

  /** The storage section of `validateConfig`: check 8. */
  method ValidateStorage(config: Config, errors0: seq<string>) returns (errors: seq<string>)
    ensures errors == Next(config, 8, errors0)
  {
    errors := errors0;
    if !IsNotBlank(config.storage.playerPersonalityFile) {
      errors := errors + ["玩家个性设置文件名不能为空"];
    }
  }

  /** `ValidationErrors` written out as the nine checks in their order. */
  lemma AllChecks(c: Config)
    ensures ValidationErrors(c)
      == Next(c, 8, Next(c, 7, Next(c, 6, Next(c, 5, Next(c, 4, Next(c, 3, Next(c, 2, Next(c, 1, Next(c, 0, [])))))))))
  {
    assert ErrorsUpTo(c, 1) == Next(c, 0, []);
    assert ErrorsUpTo(c, 2) == Next(c, 1, ErrorsUpTo(c, 1));
    assert ErrorsUpTo(c, 3) == Next(c, 2, ErrorsUpTo(c, 2));
    assert ErrorsUpTo(c, 4) == Next(c, 3, ErrorsUpTo(c, 3));
    assert ErrorsUpTo(c, 5) == Next(c, 4, ErrorsUpTo(c, 4));
    assert ErrorsUpTo(c, 6) == Next(c, 5, ErrorsUpTo(c, 5));
    assert ErrorsUpTo(c, 7) == Next(c, 6, ErrorsUpTo(c, 6));
    assert ErrorsUpTo(c, 8) == Next(c, 7, ErrorsUpTo(c, 7));
  }

  /** The nine messages are pairwise different, so a message names its check. */
  lemma MessageNamesCheck(i: nat, j: nat)
    requires i < CheckCount && j < CheckCount && Message(i) == Message(j)
    ensures i == j
  {
  }

  /** The errors among the first `k` checks: at most one per check, one for each failing
      check, and nothing else. */
  lemma {:induction false} ErrorsUpToShape(c: Config, k: nat)
    requires k <= CheckCount
    ensures |ErrorsUpTo(c, k)| <= k
    ensures forall j | 0 <= j < k :: Message(j) in ErrorsUpTo(c, k) <==> !Passes(c, j)
    ensures forall m | m in ErrorsUpTo(c, k) :: exists j :: 0 <= j < k && !Passes(c, j) && m == Message(j)
  {
    if k > 0 {
      ErrorsUpToShape(c, k - 1);
      var prev := ErrorsUpTo(c, k - 1);
      var last: seq<string> := if Passes(c, k - 1) then [] else [Message(k - 1)];
      assert ErrorsUpTo(c, k) == prev + last;
      forall j | 0 <= j < k
        ensures Message(j) in prev + last <==> !Passes(c, j)
      {
        if j < k - 1 {
          if Message(j) in last {
            MessageNamesCheck(j, k - 1);
          }
        } else if Message(j) in prev {
          var j' :| 0 <= j' < k - 1 && !Passes(c, j') && Message(j) == Message(j');
          MessageNamesCheck(j, j');
        }
      }
      forall m | m in prev + last
        ensures exists j :: 0 <= j < k && !Passes(c, j) && m == Message(j)
      {
        if m !in prev {
          assert m in last;
        }
      }
    }
  }

  /** `validateConfig` reports nothing exactly when every field meets its bound. */
  lemma NoErrorsIffValid(c: Config)
    ensures ValidationErrors(c) == [] <==> IsValidConfig(c)
  {
    ErrorsUpToShape(c, CheckCount);
    if ValidationErrors(c) != [] {
      assert ValidationErrors(c)[0] in ValidationErrors(c);
    } else {
      assert Message(0) !in ValidationErrors(c) && Message(1) !in ValidationErrors(c);
      assert Message(2) !in ValidationErrors(c) && Message(3) !in ValidationErrors(c);
      assert Message(4) !in ValidationErrors(c) && Message(5) !in ValidationErrors(c);
      assert Message(6) !in ValidationErrors(c) && Message(7) !in ValidationErrors(c);
      assert Message(8) !in ValidationErrors(c);
    }
  }

  /** At most nine messages; a check's message is reported exactly when that check fails,
      and every reported message belongs to a failing check. */
  lemma ErrorsMatchFailedChecks(c: Config)
    ensures |ValidationErrors(c)| <= CheckCount
    ensures forall j | 0 <= j < CheckCount :: Message(j) in ValidationErrors(c) <==> !Passes(c, j)
    ensures forall m | m in ValidationErrors(c) :: exists j :: 0 <= j < CheckCount && !Passes(c, j) && m == Message(j)
  {
    ErrorsUpToShape(c, CheckCount);
  }

  /** A failing check's message comes before the message of every later failing check. */
  lemma {:induction false} ErrorsInCheckOrder(c: Config, i: nat, j: nat)
    requires i < j < CheckCount && !Passes(c, i) && !Passes(c, j)
    ensures exists a, b ::
      (0 <= a < b < |ValidationErrors(c)| && ValidationErrors(c)[a] == Message(i) && ValidationErrors(c)[b] == Message(j))
  {
    ErrorsUpToShape(c, j);
    var prev := ErrorsUpTo(c, j);
    var a :| 0 <= a < |prev| && prev[a] == Message(i);
    var upTo := ErrorsUpTo(c, j + 1);
    assert upTo == prev + [Message(j)];
    var all := ValidationErrors(c);
    assert all == ErrorsUpTo(c, CheckCount);
    PrefixGrows(c, j + 1, CheckCount);
    assert all[a] == upTo[a] == Message(i);
    assert all[|prev|] == upTo[|prev|] == Message(j);
  }

  /** Later checks only append. */
  lemma {:induction false} PrefixGrows(c: Config, k: nat, n: nat)
    requires k <= n <= CheckCount
    ensures ErrorsUpTo(c, k) <= ErrorsUpTo(c, n)
    decreases n - k
  {
    if k < n {
      PrefixGrows(c, k, n - 1);
    }
  }

  /** The smallest accepted values pass their checks. */
  lemma BoundaryValuesAccepted(c: Config)
    requires c.websocket.reconnectInterval == 1000 && c.websocket.maxReconnectAttempts == 0
    requires c.websocket.heartbeatInterval == 5000 && c.websocket.heartbeatTimeout == 10000
    ensures forall j | 2 <= j <= 5 :: Message(j) !in ValidationErrors(c)
  {
    ErrorsMatchFailedChecks(c);
    assert Passes(c, 2) && Passes(c, 3) && Passes(c, 4) && Passes(c, 5);
  }

  /** The default configuration fails on its blank token and on nothing else. */
  lemma DefaultFailsOnlyOnToken()
    ensures ValidationErrors(Default()) == ["WebSocket Token 不能为空"]
  {
    var c := Default();
    assert !IsWhitespace(c.websocket.url[0]);
    assert !IsWhitespace(c.chat.mainPrefix[0]);
    assert !IsWhitespace(c.storage.playerPersonalityFile[0]);
    assert ErrorsUpTo(c, 1) == [];
    assert ErrorsUpTo(c, 2) == [Message(1)];
    assert ErrorsUpTo(c, 5) == [Message(1)];
    assert ErrorsUpTo(c, 9) == [Message(1)];
  }
}
