/**
 * Mission steps: how a step definition of a mission program becomes a step
 * (`build_from_def` of each step class and `Mission._build_step(s)`), and what
 * running a step does (`execute` of each step class).
 */
module Steps {
  import opened Wrappers
  import opened Json
  import opened Types

  /** `Mission.defaultStepTimeoutMs`, also the default of `Step.__init__`. */
  const DefaultStepTimeoutMs: Json := JNum(-1.0)

  /** One variant per step class; `timeoutMs` is carried but never enforced. */
  datatype Step =
    | PublishToTopic(stepLabel: Json, message: Json, timeoutMs: Json)
    | RunScript(stepLabel: Json, fileName: Json, args: Json, timeoutMs: Json)
    | NavigateTo(stepLabel: Json, waypoint: Pose, tolerance: SpatialTolerance, timeoutMs: Json)
    | WaitSeconds(stepLabel: Json, seconds: Json, timeoutMs: Json)
    | SetData(stepLabel: Json, data: Json, timeoutMs: Json)

  /** A call of the robot session's `dispatch_command(name, args)`. */
  datatype Command = Command(name: string, args: Json)

  // ---------------------------------------------------------------------------
  // build_from_def of each step class

  function PublishToTopicFromDef(def: Json, defaultTimeoutMs: Json): (r: Result<Step, PyError>)
    ensures r.Ok? <==> "label" in Fields(def) && "message" in Fields(ActionOf(def))
    ensures r.Ok? ==> r.value == PublishToTopic(Fields(def)["label"], Fields(ActionOf(def))["message"],
                                                GetOrDefault(def, "timeoutMs", defaultTimeoutMs))
  {
    var stepLabel :- Subscript(def, "label");
    var action :- Subscript(def, "action");
    var message :- Subscript(action, "message");
    var timeoutMs := GetOrDefault(def, "timeoutMs", defaultTimeoutMs);
    Ok(PublishToTopic(stepLabel, message, timeoutMs))
  }

  function SetDataFromDef(def: Json, defaultTimeoutMs: Json): (r: Result<Step, PyError>)
    ensures r.Ok? <==> "label" in Fields(def) && "data" in Fields(def)
    ensures r.Ok? ==> r.value == SetData(Fields(def)["label"], Fields(def)["data"], GetOrDefault(def, "timeoutMs", defaultTimeoutMs))
  {
    var stepLabel :- Subscript(def, "label");
    var data :- Subscript(def, "data");
    var timeoutMs := GetOrDefault(def, "timeoutMs", defaultTimeoutMs);
    Ok(SetData(stepLabel, data, timeoutMs))
  }

  function RunScriptFromDef(def: Json, defaultTimeoutMs: Json): (r: Result<Step, PyError>)
    ensures r.Ok? <==> "label" in Fields(def) && "fileName" in Fields(ActionOf(def)) && "args" in Fields(ActionOf(def))
    ensures r.Ok? ==> r.value == RunScript(Fields(def)["label"], Fields(ActionOf(def))["fileName"],
                                           Fields(ActionOf(def))["args"], GetOrDefault(def, "timeoutMs", defaultTimeoutMs))
  {
    var stepLabel :- Subscript(def, "label");
    var action :- Subscript(def, "action");
    var fileName :- Subscript(action, "fileName");
    var args :- Subscript(action, "args");
    var timeoutMs := GetOrDefault(def, "timeoutMs", defaultTimeoutMs);
    Ok(RunScript(stepLabel, fileName, args, timeoutMs))
  }

  /** `MissionStepWaitSeconds.build_from_def` takes no default timeout: the step keeps `Step`'s -1. */
  function WaitSecondsFromDef(def: Json): (r: Result<Step, PyError>)
    ensures r.Ok? <==> "label" in Fields(def) && "seconds" in Fields(def)
    ensures r.Ok? ==> r.value == WaitSeconds(Fields(def)["label"], Fields(def)["seconds"], DefaultStepTimeoutMs)
  {
    var stepLabel :- Subscript(def, "label");
    var seconds :- Subscript(def, "seconds");
    Ok(WaitSeconds(stepLabel, seconds, DefaultStepTimeoutMs))
  }

  /** `MissionStepNavigateTo.build_from_def` and its `__init__`, which reads the waypoint and tolerance dicts. */
  function NavigateToFromDef(def: Json, defaultTimeoutMs: Json): (r: Result<Step, PyError>)
    ensures r.Ok? <==> NavigateToFieldsPresent(def)
    ensures r.Ok? ==>
      var w := Fields(Fields(ActionOf(def))["waypoint"]);
      var tol := Fields(Fields(def)["tolerance"]);
      r.value == NavigateTo(Fields(def)["label"], Pose(w["frameId"], w["x"], w["y"], w["theta"]),
                            SpatialTolerance(tol["positionMeters"], tol["angularRadians"]),
                            GetOrDefault(def, "timeoutMs", defaultTimeoutMs))
  {
    var stepLabel :- Subscript(def, "label");
    var action :- Subscript(def, "action");
    var waypoint :- Subscript(action, "waypoint");
    var tolerance :- Subscript(def, "tolerance");
    var timeoutMs := GetOrDefault(def, "timeoutMs", defaultTimeoutMs);
    var x :- Subscript(waypoint, "x");
    var y :- Subscript(waypoint, "y");
    var theta :- Subscript(waypoint, "theta");
    var frameId :- Subscript(waypoint, "frameId");
    var position :- Subscript(tolerance, "positionMeters");
    var angular :- Subscript(tolerance, "angularRadians");
    Ok(NavigateTo(stepLabel, Pose(frameId, x, y, theta), SpatialTolerance(position, angular), timeoutMs))
  }

  /** Every key `MissionStepNavigateTo` reads: its label, the action's waypoint with its pose, and the tolerance. */
  predicate NavigateToFieldsPresent(def: Json)
  {
    && "label" in Fields(def) && "waypoint" in Fields(ActionOf(def)) && "tolerance" in Fields(def)
    && var w := Fields(Fields(ActionOf(def))["waypoint"]);
       var tol := Fields(Fields(def)["tolerance"]);
       && "x" in w && "y" in w && "theta" in w && "frameId" in w
       && "positionMeters" in tol && "angularRadians" in tol
  }

  /** The keys of a dict, none for any other value. */
  function Fields(j: Json): map<string, Json>
  {
    if j.JObj? then j.fields else map[]
  }

  /** `def["action"]` when it exists, `null` otherwise. */
  function ActionOf(def: Json): Json
  {
    if "action" in Fields(def) then Fields(def)["action"] else JNull
  }

  /** Whether `def["type"] == "Action"` and `def["action"]["type"] == actionType`. */
  predicate IsAction(def: Json, actionType: string)
  {
    "type" in Fields(def) && Fields(def)["type"] == JStr("Action")
    && "type" in Fields(ActionOf(def)) && Fields(ActionOf(def))["type"] == JStr(actionType)
  }

  predicate HasType(def: Json, stepType: string)
  {
    "type" in Fields(def) && Fields(def)["type"] == JStr(stepType)
  }

  // ---------------------------------------------------------------------------
  // Mission._build_step and Mission._build_steps

  /** The tag dispatch of `Mission._build_step`; an unknown tag raises. */
  function BuildStep(def: Json): (r: Result<Step, PyError>)
    ensures r.Ok? && r.value.PublishToTopic? ==> IsAction(def, "PublishToTopic")
    ensures r.Ok? && r.value.RunScript? ==> IsAction(def, "RunScript")
    ensures r.Ok? && r.value.NavigateTo? ==> IsAction(def, "NavigateTo")
    ensures r.Ok? && r.value.WaitSeconds? ==> HasType(def, "WaitSeconds")
    ensures r.Ok? && r.value.SetData? ==> HasType(def, "SetData")
    ensures r.Ok? ==> "label" in Fields(def) && r.value.stepLabel == Fields(def)["label"]
    ensures IsAction(def, "PublishToTopic") ==> r == PublishToTopicFromDef(def, DefaultStepTimeoutMs)
    ensures IsAction(def, "RunScript") ==> r == RunScriptFromDef(def, DefaultStepTimeoutMs)
    ensures IsAction(def, "NavigateTo") ==> r == NavigateToFromDef(def, DefaultStepTimeoutMs)
    ensures HasType(def, "WaitSeconds") ==> r == WaitSecondsFromDef(def)
    ensures HasType(def, "SetData") ==> r == SetDataFromDef(def, DefaultStepTimeoutMs)
  {
    var stepType :- Subscript(def, "type");
    if stepType == JStr("Action") then
      var action :- Subscript(def, "action");
      var actionType :- Subscript(action, "type");
      if actionType == JStr("PublishToTopic") then PublishToTopicFromDef(def, DefaultStepTimeoutMs)
      else if actionType == JStr("RunScript") then RunScriptFromDef(def, DefaultStepTimeoutMs)
      else if actionType == JStr("NavigateTo") then NavigateToFromDef(def, DefaultStepTimeoutMs)
      else Err(UnknownStepType(def))
    else if stepType == JStr("WaitSeconds") then WaitSecondsFromDef(def)
    else if stepType == JStr("SetData") then SetDataFromDef(def, DefaultStepTimeoutMs)
    else Err(UnknownStepType(def))
  }

  /** The list comprehension of `_build_steps`: the first step that fails to build makes the whole list fail. */
  function BuildStepList(defs: seq<Json>): (r: Result<seq<Step>, PyError>)
    ensures r.Ok? <==> forall k :: 0 <= k < |defs| ==> BuildStep(defs[k]).Ok?
    ensures r.Ok? ==> |r.value| == |defs| && forall k :: 0 <= k < |defs| ==> r.value[k] == BuildStep(defs[k]).value
  {
    if |defs| == 0 then Ok([])
    else
      var first :- BuildStep(defs[0]);
      var rest :- BuildStepList(defs[1..]);
      Ok([first] + rest)
  }

  /**
   * `Mission._build_steps(program)` for a program dict. `program["steps"]` is iterated:
   * a list yields its items; an empty dict or empty string yields nothing; a non-empty
   * dict or string yields strings, which cannot be subscripted by "type"; any other
   * value is not iterable.
   */
  function BuildSteps(program: map<string, Json>): (r: Result<seq<Step>, PyError>)
    ensures "steps" !in program ==> r == Ok([])
    ensures "steps" in program && program["steps"].JArr? ==> r == BuildStepList(program["steps"].items)
    ensures "steps" in program && !program["steps"].JArr? ==>
      && (r.Ok? <==> program["steps"] == JObj(map[]) || program["steps"] == JStr(""))
      && (r.Ok? ==> r.value == [])
      && (r.Err? ==> r.error == TypeError)
  {
    if "steps" !in program then Ok([])
    else match program["steps"]
      case JArr(defs) => BuildStepList(defs)
      case JObj(m) => if |m| == 0 then Ok([]) else Err(TypeError)
      case JStr(s) => if |s| == 0 then Ok([]) else Err(TypeError)
      case _ => Err(TypeError)
  }

  // ---------------------------------------------------------------------------
  // execute of each step class

  /** The argument list a NavigateTo step sends with its "navGoal" command: one dict holding the pose. */
  function NavGoalArgs(w: Pose): (r: Json)
    ensures r.JArr? && |r.items| == 1 && r.items[0].JObj?
    ensures r.items[0].fields.Keys == {"x", "y", "theta", "frameId"}
    ensures var goal := r.items[0].fields;
      goal["x"] == w.x && goal["y"] == w.y && goal["theta"] == w.theta && goal["frameId"] == w.frameId
  {
    JArr([JObj(map["x" := w.x, "y" := w.y, "theta" := w.theta, "frameId" := w.frameId])])
  }

  /** The commands a step dispatches when it runs, in order. */
  function StepCommands(s: Step): (cmds: seq<Command>)
    ensures |cmds| <= 1
    ensures |cmds| == 1 <==> !s.WaitSeconds? && !s.SetData?
  {
    match s
    case PublishToTopic(_, message, _) => [Command("message", message)]
    case RunScript(_, fileName, args, _) => [Command("customCommand", JArr([fileName, args]))]
    case NavigateTo(_, waypoint, _, _) => [Command("navGoal", NavGoalArgs(waypoint))]
    case WaitSeconds(_, _, _) => []
    case SetData(_, _, _) => []
  }

  /** `time.sleep(seconds)` returns for a non-negative number (a bool is an int in Python) and raises otherwise. */
  predicate SleepAccepts(seconds: Json): (ok: bool)
    ensures seconds.JNum? ==> (ok <==> seconds.n >= 0.0)
    ensures seconds.JBool? ==> ok
    ensures seconds.JNull? || seconds.JStr? || seconds.JArr? || seconds.JObj? ==> !ok
  {
    (seconds.JNum? && seconds.n >= 0.0) || seconds.JBool?
  }

  /** `mission.data` after a step that returned normally: SetData merges its dict (`dict.update`). */
  function DataEffect(s: Step, data: map<string, Json>): (r: map<string, Json>)
    ensures s.SetData? && s.data.JObj? ==> r.Keys == data.Keys + s.data.fields.Keys
    ensures s.SetData? && s.data.JObj? ==> forall k :: k in s.data.fields ==> r[k] == s.data.fields[k]
    ensures forall k :: k in data && !(s.SetData? && s.data.JObj? && k in s.data.fields) ==> k in r && r[k] == data[k]
    ensures !s.SetData? ==> r == data
  {
    if s.SetData? && s.data.JObj? then data + s.data.fields else data
  }

  // ---------------------------------------------------------------------------
  // Properties of step construction

  /** Each recognised tag builds its own variant once the fields that variant reads are present. */
  lemma TagsBuildTheirVariant(def: Json)
    ensures IsAction(def, "PublishToTopic") && "label" in Fields(def) && "message" in Fields(ActionOf(def))
            ==> BuildStep(def).Ok? && BuildStep(def).value.PublishToTopic?
    ensures IsAction(def, "RunScript") && "label" in Fields(def) && "fileName" in Fields(ActionOf(def)) && "args" in Fields(ActionOf(def))
            ==> BuildStep(def).Ok? && BuildStep(def).value.RunScript?
    ensures IsAction(def, "NavigateTo") && NavigateToFieldsPresent(def)
            ==> BuildStep(def).Ok? && BuildStep(def).value.NavigateTo?
    ensures HasType(def, "WaitSeconds") && "label" in Fields(def) && "seconds" in Fields(def)
            ==> BuildStep(def).Ok? && BuildStep(def).value.WaitSeconds?
    ensures HasType(def, "SetData") && "label" in Fields(def) && "data" in Fields(def)
            ==> BuildStep(def).Ok? && BuildStep(def).value.SetData?
  {
  }

  /** A step type other than Action, WaitSeconds and SetData, or an Action of another kind, raises. */
  lemma UnknownTagsRaise(def: Json)
    requires "type" in Fields(def)
    ensures Fields(def)["type"] != JStr("Action") && !HasType(def, "WaitSeconds") && !HasType(def, "SetData")
            ==> BuildStep(def) == Err(UnknownStepType(def))
    ensures HasType(def, "Action") && "type" in Fields(ActionOf(def))
            && !IsAction(def, "PublishToTopic") && !IsAction(def, "RunScript") && !IsAction(def, "NavigateTo")
            ==> BuildStep(def) == Err(UnknownStepType(def))
  {
  }

  /**
   * What a built step dispatches, read off its definition: the message of a PublishToTopic,
   * the file name and arguments of a RunScript, the pose of a NavigateTo; nothing otherwise.
   */
  lemma BuildStepCommands(def: Json)
    requires BuildStep(def).Ok?
    ensures IsAction(def, "PublishToTopic") ==>
      StepCommands(BuildStep(def).value) == [Command("message", Fields(ActionOf(def))["message"])]
    ensures IsAction(def, "RunScript") ==>
      StepCommands(BuildStep(def).value)
        == [Command("customCommand", JArr([Fields(ActionOf(def))["fileName"], Fields(ActionOf(def))["args"]]))]
    ensures IsAction(def, "NavigateTo") ==>
      var w := Fields(Fields(ActionOf(def))["waypoint"]);
      StepCommands(BuildStep(def).value)
        == [Command("navGoal", JArr([JObj(map["x" := w["x"], "y" := w["y"], "theta" := w["theta"], "frameId" := w["frameId"]])]))]
    ensures HasType(def, "WaitSeconds") || HasType(def, "SetData") ==> StepCommands(BuildStep(def).value) == []
  {
  }

  /** A step definition without "timeoutMs" gets -1; a WaitSeconds step always has -1. */
  lemma TimeoutDefaultsToMinusOne(def: Json)
    requires BuildStep(def).Ok?
    ensures "timeoutMs" !in Fields(def) ==> BuildStep(def).value.timeoutMs == JNum(-1.0)
    ensures BuildStep(def).value.WaitSeconds? ==> BuildStep(def).value.timeoutMs == JNum(-1.0)
  {
  }
}
