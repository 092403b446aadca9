/**
 * The text commands of `MissionsModule`: a "message" command whose text names a
 * mission sub-command, and the argument checks of the run and cancel sub-commands.
 */
module Commands {
  import opened Wrappers
  import opened Text

  const CommandPause := "inorbit_pause"
  const CommandResume := "inorbit_resume"
  const CommandRunMission := "inorbit_run_mission"
  const CommandCancelMission := "inorbit_cancel_mission"
  const CommandEvent := "inorbit_event"

  /** The sub-command `command_callback` hands on, with the text after the sub-command's name. */
  datatype Request =
    | Ignored
    | Pause
    | Resume
    | Event(args: string)
    | RunMission(args: string)
    | CancelMission(args: string)

  /**
   * `cmd = msg.split(" ")[0]` and `cmd_args = " ".join(msg.split(" ")[1:])`: the text
   * before the first space and the text after it.
   */
  function SplitMessage(msg: string): (r: (string, string))
    ensures ' ' !in r.0
    ensures ' ' in msg ==> r.0 + " " + r.1 == msg
    ensures ' ' !in msg ==> r.0 == msg && r.1 == ""
  {
    var parts := Split(msg);
    JoinSplit(msg);
    SplitCount(msg);
    (parts[0], Join(parts[1..]))
  }

  /** `command_callback`: only "message" commands are looked at, and only the five sub-command names do anything. */
  function Classify(commandName: string, msg: string): (r: Request)
    ensures commandName != "message" ==> r == Ignored
    ensures r.RunMission? ==> msg == CommandRunMission + " " + r.args || (msg == CommandRunMission && r.args == "")
    ensures r.CancelMission? ==> msg == CommandCancelMission + " " + r.args || (msg == CommandCancelMission && r.args == "")
  {
    if commandName != "message" then Ignored
    else
      var (cmd, cmdArgs) := SplitMessage(msg);
      if cmd == CommandPause then Pause
      else if cmd == CommandResume then Resume
      else if cmd == CommandEvent then Event(cmdArgs)
      else if cmd == CommandRunMission then RunMission(cmdArgs)
      else if cmd == CommandCancelMission then CancelMission(cmdArgs)
      else Ignored
  }

  /**
   * The argument check of `handle_run_mission`: at least two space-separated fields;
   * the first is the mission id, the rest re-joined by " " is the program text.
   */
  function ParseRunMission(args: string): (r: Option<(string, string)>)
    ensures r.Some? <==> ' ' in args
    ensures r.Some? ==> ' ' !in r.value.0 && r.value.0 + " " + r.value.1 == args
  {
    var parts := Split(args);
    SplitCount(args);
    if |parts| < 2 then None
    else
      JoinSplit(args);
      Some((parts[0], Join(parts[1..])))
  }

  /** The argument check of `handle_cancel_mission`: the argument string must have length exactly one. */
  function CancelArgument(args: string): (r: Option<string>)
    ensures r.Some? <==> |args| == 1
    ensures r.Some? ==> r.value == [args[0]] && r.value == args
  {
    if |args| != 1 then None else Some([args[0]])
  }

  /** A mission id without spaces and any program text travel through both splits intact. */
  lemma RunMissionRoundTrip(id: string, program: string)
    requires ' ' !in id
    ensures Classify("message", CommandRunMission + " " + id + " " + program) == RunMission(id + " " + program)
    ensures ParseRunMission(id + " " + program) == Some((id, program))
  {
    var args := id + " " + program;
    FirstFieldIsPrefix(CommandRunMission, args);
    assert CommandRunMission + " " + id + " " + program == CommandRunMission + " " + args;
    FirstFieldIsPrefix(id, program);
  }

  /** When `head` has no space, splitting `head + " " + rest` at its first space gives `head` and `rest`. */
  lemma FirstFieldIsPrefix(head: string, rest: string)
    requires ' ' !in head
    ensures SplitMessage(head + " " + rest) == (head, rest)
    ensures ParseRunMission(head + " " + rest) == Some((head, rest))
  {
    var s := head + " " + rest;
    var r := SplitMessage(s);
    assert s[|head|] == ' ';
    var i := IndexOf(s, ' ');
    assert s[..|head|] == head;
    assert i == |head|;
    assert Split(s) == [head] + Split(s[|head| + 1..]);
    assert s[|head| + 1..] == rest;
    JoinSplit(rest);
  }

  /** Only a message whose first field is "inorbit_cancel_mission" and whose remainder is one character reaches the executor. */
  lemma CancelNeedsOneCharacter(id: string)
    ensures CancelArgument(id).Some? <==> |id| == 1
    ensures Classify("message", CommandCancelMission + " " + id) == CancelMission(id)
  {
    FirstFieldIsPrefix(CommandCancelMission, id);
  }
}
