/** `ReloadCommand`: the `/chatforward` command, whose one sub-command reloads the
    configuration. */
module ReloadCommand {
  import opened KotlinText

  /** The `NamedTextColor`s the command answers in. */
  datatype Color = Green | Red | Yellow

  /** A chat component sent back to the command source. */
  datatype Feedback = Feedback(text: string, color: Color)

  /** How `plugin.reloadConfig()` went: it returned `success`, or it threw an exception
      whose `message` may be null. */
  datatype ReloadOutcome = Returned(success: bool) | Threw(message: Option<string>)

  /** What one `execute` did: whether it called `reloadConfig`, and what it said. */
  datatype Execution = Execution(reloaded: bool, feedback: Feedback)

  const SubCommand: string := "reload"
  const UsageText: string := "用法: /chatforward reload"
  const ReloadedText: string := "ChatForward配置已重新加载!"
  const FailedText: string := "重新加载配置失败，请检查控制台日志!"
  const ErrorText: string := "重新加载配置时发生错误: "

  /** The argument gate of `execute`: a first argument equal to `reload`. */
  predicate RunsReload(args: seq<string>) {
    |args| > 0 && args[0] == SubCommand
  }

  /** `execute`: with the gate passed, `reloadConfig` is called and its outcome is
      reported; otherwise only the usage line is shown. Arguments after the first are
      ignored. */
  function Execute(args: seq<string>, outcome: ReloadOutcome): (r: Execution)
    ensures r.reloaded <==> RunsReload(args)
    ensures !RunsReload(args) ==> r.feedback == Feedback(UsageText, Yellow)
    ensures r.feedback.color == Green <==> RunsReload(args) && outcome == Returned(true)
    ensures r.feedback.color == Red <==> RunsReload(args) && outcome != Returned(true)
    ensures RunsReload(args) && outcome.Threw? ==>
      r.feedback.text == ErrorText + outcome.message.GetOr("null")
  {
    if RunsReload(args) then
      match outcome
      case Returned(true) => Execution(true, Feedback(ReloadedText, Green))
      case Returned(false) => Execution(true, Feedback(FailedText, Red))
      case Threw(message) => Execution(true, Feedback(ErrorText + message.GetOr("null"), Red))
    else Execution(false, Feedback(UsageText, Yellow))
  }

  /** `suggest`: the completions offered for the arguments typed so far. */
  function Suggest(args: seq<string>): (r: seq<string>)
    ensures r == [] || r == [SubCommand]
    ensures r == [SubCommand] <==> |args| == 0 || (|args| == 1 && StartsWith(SubCommand, args[0]))
  {
    if |args| == 0 then [SubCommand]
    else if |args| == 1 && StartsWith(SubCommand, args[0]) then [SubCommand]
    else []
  }

  /** The arguments once the word being typed is replaced by a completion. */
  function Complete(args: seq<string>, completion: string): (r: seq<string>)
    ensures |r| == if |args| == 0 then 1 else |args|
    ensures r[|r| - 1] == completion
  {
    if |args| == 0 then [completion] else args[..|args| - 1] + [completion]
  }

  /** Every completion `suggest` offers, once accepted, passes the gate of `execute`;
      and a lone argument that already passes the gate is still offered. */
  lemma SuggestionPassesGate(args: seq<string>)
    ensures forall c | c in Suggest(args) :: RunsReload(Complete(args, c))
    ensures RunsReload(args) && |args| == 1 ==> Suggest(args) == [SubCommand]
  {
    if |args| == 1 && RunsReload(args) {
      assert StartsWith(SubCommand, args[0]);
    }
  }

  /** `suggest` offers nothing once two or more arguments are typed, even when the
      first one already runs the reload. */
  lemma NoSuggestionAfterTwoArguments(args: seq<string>)
    requires |args| >= 2
    ensures Suggest(args) == []
  {
  }

  /** `hasPermission`: the source holds `chatforward.reload` or `chatforward.admin`;
      `granted` is the set of permissions the source holds. */
  function HasPermission(granted: set<string>): (r: bool)
    ensures r <==> granted * ReloadPermissions() != {}
  {
    GrantedReloadPermissions(granted);
    "chatforward.reload" in granted || "chatforward.admin" in granted
  }

  /** The two permissions that open the command. */
  function ReloadPermissions(): set<string> {
    {"chatforward.reload", "chatforward.admin"}
  }

  lemma GrantedReloadPermissions(granted: set<string>)
    ensures granted * ReloadPermissions() != {} <==> "chatforward.reload" in granted || "chatforward.admin" in granted
  {
    if "chatforward.reload" in granted {
      assert "chatforward.reload" in granted * ReloadPermissions();
    } else if "chatforward.admin" in granted {
      assert "chatforward.admin" in granted * ReloadPermissions();
    } else {
      assert granted * ReloadPermissions() == {};
    }
  }

  /** Granting more permissions never takes the command away. */
  lemma PermissionMonotone(granted: set<string>, more: set<string>)
    requires granted <= more
    ensures HasPermission(granted) ==> HasPermission(more)
  {
  }
}
