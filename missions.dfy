/**
 * The mission engine's objects: the robot session as the engine sees it, a
 * `Mission` and its `execute` loop, the `MissionExecutor` and the
 * `MissionsModule` that turns text commands into missions.
 *
 * Threads are not modelled: the executor runs a mission to the end of its
 * `execute` call before `run_mission` returns, and a `cancel()` issued by another
 * thread while a step runs is given as the set of step indices it follows.
 */
module Missions {
  import opened Wrappers
  import opened Json
  import opened Types
  import opened Steps
  import opened Reports
  import opened MissionRuns
  import opened Commands

  /**
   * The robot session, reduced to what the mission engine uses. It records every
   * `dispatch_command` and every `publish_key_values(key_values={"mission_tracking": report})`
   * call; whether a command raises and whether a waypoint is reached come from `env`.
   */
  class RobotSession {
    const env: SessionEnv
    ghost var commands: seq<Command>
    ghost var published: seq<Report>

    constructor (env: SessionEnv)
      ensures this.env == env && commands == [] && published == []
    {
      this.env := env;
      commands := [];
      published := [];
    }

    method DispatchCommand(name: string, args: Json) returns (raised: bool)
      modifies this
      ensures commands == old(commands) + [Command(name, args)] && published == old(published)
      ensures raised == env.dispatchRaises(Command(name, args))
    {
      commands := commands + [Command(name, args)];
      raised := env.dispatchRaises(Command(name, args));
    }

    method PublishKeyValues(report: Report)
      modifies this
      ensures published == old(published) + [report] && commands == old(commands)
    {
      published := published + [report];
    }

    /** `reached_waypoint(waypoint, tolerance)` at the given poll of the current NavigateTo step. */
    predicate ReachedWaypoint(waypoint: Pose, tolerance: SpatialTolerance, poll: nat)
    {
      env.reached(waypoint, tolerance, poll)
    }
  }

  /**
   * The part of `Mission.__init__` that can raise: `program["label"]` and
   * `_build_steps(program)`. The other fields start as the constructor sets them.
   */
  function NewMission(id: string, program: Json, startTs: int): (r: Result<MissionView, PyError>)
    ensures r.Ok? <==> program.JObj? && "label" in program.fields && BuildSteps(program.fields).Ok?
    ensures r.Ok? ==> r.value == MissionView(id, program.fields["label"], startTs, None,
                                             BuildSteps(program.fields).value, Starting, StatusOk, -1, None, map[])
    ensures program.JObj? && "label" in program.fields && "steps" !in program.fields ==> r.Ok? && r.value.steps == []
  {
    var missionLabel :- Subscript(program, "label");
    var steps :- BuildSteps(program.fields);
    Ok(MissionView(id, missionLabel, startTs, None, steps, Starting, StatusOk, -1, None, map[]))
  }

  class Mission {
    const id: string
    const missionLabel: Json
    const startTs: int
    const steps: seq<Step>
    const session: RobotSession
    var endTs: Option<int>
    var state: MissionState
    var status: Status
    var currentStepIdx: int
    var currentStep: Option<Step>
    var data: map<string, Json>

    constructor (id: string, missionLabel: Json, steps: seq<Step>, session: RobotSession, startTs: int)
      ensures View() == MissionView(id, missionLabel, startTs, None, steps, Starting, StatusOk, -1, None, map[])
      ensures this.session == session
    {
      this.id := id;
      this.missionLabel := missionLabel;
      this.startTs := startTs;
      this.steps := steps;
      this.session := session;
      endTs := None;
      state := Starting;
      status := StatusOk;
      currentStepIdx := -1;
      currentStep := None;
      data := map[];
    }

    function View(): MissionView
      reads this
    {
      MissionView(id, missionLabel, startTs, endTs, steps, state, status, currentStepIdx, currentStep, data)
    }

    /** `set_data`: `dict.update`, so keys of `payload` win and other keys keep their values. */
    method SetData(payload: map<string, Json>)
      modifies this`data
      ensures data.Keys == old(data).Keys + payload.Keys
      ensures forall k :: k in payload ==> data[k] == payload[k]
      ensures forall k :: k in old(data) && k !in payload ==> data[k] == old(data)[k]
    {
      data := data + payload;
    }

    /** `cancel`: sets the state to "Aborted"; the status is left as it is. */
    method Cancel()
      modifies this`state
      ensures View() == old(View()).(state := Aborted)
    {
      state := Aborted;
    }

    /** `report`: build the report and publish it; `build_report` raises when there are no steps. */
    method PublishReport() returns (raised: bool)
      modifies session
      ensures raised <==> |steps| == 0
      ensures session.published == old(session.published) + (if raised then [] else [BuildReport(View()).value])
      ensures session.commands == old(session.commands)
    {
      var report := BuildReport(View());
      if report.Err? {
        return true;
      }
      session.PublishKeyValues(report.value);
      return false;
    }

    /** The polling loop of NavigateTo's `execute`: it returns once the session reports the waypoint reached. */
    method AwaitWaypoint(waypoint: Pose, tolerance: SpatialTolerance) returns (outcome: StepOutcome)
      ensures outcome == Returned <==> ReachedWithin(session.env, waypoint, tolerance)
      ensures outcome == Returned || outcome == NeverReached
    {
      var poll := 0;
      while poll < session.env.maxPolls
        invariant 0 <= poll <= session.env.maxPolls
        invariant forall k :: 0 <= k < poll ==> !session.env.reached(waypoint, tolerance, k)
      {
        if session.ReachedWaypoint(waypoint, tolerance, poll) {
          return Returned;
        }
        poll := poll + 1;
      }
      return NeverReached;
    }

    /** `execute(mission)` of each step class. */
    method ExecuteStep(s: Step) returns (outcome: StepOutcome)
      modifies this`data, session
      ensures outcome == StepOutcomeOf(s, session.env)
      ensures data == if outcome == Returned then DataEffect(s, old(data)) else old(data)
      ensures session.commands == old(session.commands) + StepCommands(s)
      ensures session.published == old(session.published)
    {
      match s
      case PublishToTopic(_, message, _) =>
        var raised := session.DispatchCommand("message", message);
        outcome := if raised then Raised else Returned;
      case RunScript(_, fileName, args, _) =>
        var raised := session.DispatchCommand("customCommand", JArr([fileName, args]));
        outcome := if raised then Raised else Returned;
      case NavigateTo(_, waypoint, tolerance, _) =>
        var raised := session.DispatchCommand("navGoal", NavGoalArgs(waypoint));
        if raised {
          outcome := Raised;
        } else {
          outcome := AwaitWaypoint(waypoint, tolerance);
        }
      case WaitSeconds(_, seconds, _) =>
        // time.sleep(seconds): no time passes in the model, only its argument check remains
        outcome := if SleepAccepts(seconds) then Returned else Raised;
      case SetData(_, payload, _) =>
        if payload.JObj? {
          SetData(payload.fields);
          outcome := Returned;
        } else {
          outcome := Raised;
        }
    }

    /**
     * One pass of the loop of `execute` while the state is "Executing": record the
     * current step, publish a report, run the step, and abort on an exception.
     */
    method ExecuteIteration(i: int, cancels: set<int>, ghost t: Trace, ghost commands0: seq<Command>,
                            ghost published0: seq<Report>) returns (stepOutcome: StepOutcome)
      requires 0 <= i < |steps| && !Settled(t) && t.m == View()
      requires session.commands == commands0 + t.commands && session.published == published0 + t.reports
      modifies this, session
      ensures var next := Iteration(t, i, session.env, cancels);
        && View() == next.m
        && session.commands == commands0 + next.commands
        && session.published == published0 + next.reports
        && (stepOutcome == NeverReached <==> next.outcome == Hung)
        && (stepOutcome == Raised ==> Settled(next))
    {
      currentStepIdx := i;
      currentStep := Some(steps[i]);
      var raised := PublishReport();
      stepOutcome := ExecuteStep(steps[i]);
      if stepOutcome == Raised {
        state := Aborted;
        status := StatusError;
      } else if i in cancels {
        // cancel() from another thread, while the step ran or still polls
        Cancel();
      }
    }

    /**
     * `execute`. The steps run in order, each after a report; a step that raises aborts
     * the mission with status "Error"; the loop stops once the state is no longer
     * "Executing". `cancels` lists the steps during which another thread calls `cancel()`.
     */
    method Execute(endTs: int, cancels: set<int>) returns (outcome: Outcome)
      modifies this, session
      ensures var run := RunSpec(old(View()), session.env, cancels, endTs);
        && View() == run.m
        && session.commands == old(session.commands) + run.commands
        && session.published == old(session.published) + run.reports
        && outcome == run.outcome
    {
      ghost var m0 := View();
      state := Executing;
      var hung := RunSteps(cancels, Start(m0), session.commands, session.published);
      AfterLoop(m0, session.env, cancels, endTs);
      if hung {
        return Hung;
      }
      outcome := Conclude(endTs);
    }

    /**
     * The loop of `execute`, from the state "Executing" with nothing dispatched or published
     * yet in `t0`; `hung` when a NavigateTo step waits for ever.
     */
    method RunSteps(cancels: set<int>, ghost t0: Trace, ghost commands0: seq<Command>, ghost published0: seq<Report>)
      returns (hung: bool)
      requires t0 == Trace(View(), [], [], Running) && state == Executing
      requires session.commands == commands0 && session.published == published0
      modifies this, session
      ensures var t := Iterations(t0, |steps|, session.env, cancels);
        && View() == t.m
        && session.commands == commands0 + t.commands
        && session.published == published0 + t.reports
        && t.outcome == (if hung then Hung else Running)
    {
      ghost var env := session.env;
      var n := |steps|;
      var i := 0;
      while i < n
        invariant 0 <= i <= n
        invariant var t := Iterations(t0, i, env, cancels);
          && t.outcome == Running
          && View() == t.m
          && session.commands == commands0 + t.commands
          && session.published == published0 + t.reports
      {
        if state != Executing {
          IterationsSettled(t0, i, n, env, cancels);
          return false;
        }
        var stepOutcome := ExecuteIteration(i, cancels, Iterations(t0, i, env, cancels), commands0, published0);
        if stepOutcome == NeverReached {
          IterationsSettled(t0, i + 1, n, env, cancels);
          return true;
        }
        i := i + 1;
      }
      return false;
    }

    /**
     * The end of `execute`, after its loop: "Completed" and one step further if still
     * executing, the end timestamp, and the final report, which raises when there are no steps.
     */
    method Conclude(endTs: int) returns (outcome: Outcome)
      modifies this, session
      ensures View() == Finish(old(View()), endTs)
      ensures outcome == (if BuildReport(View()).Err? then Crashed else Finished)
      ensures session.commands == old(session.commands)
      ensures session.published == old(session.published) + (if outcome == Crashed then [] else [BuildReport(View()).value])
    {
      if state == Executing {
        state := Completed;
        currentStepIdx := currentStepIdx + 1;
      }
      this.endTs := Some(endTs);
      var raised := PublishReport();
      if raised {
        // ZeroDivisionError leaves execute
        return Crashed;
      }
      return Finished;
    }
  }

  /**
   * The executor. Its `mission` field is only ever cleared: `run_mission` never
   * records the mission it starts.
   */
  class MissionExecutor {
    const session: RobotSession
    var mission: Mission?
    var isIdle: bool

    constructor (session: RobotSession)
      ensures this.session == session && mission == null && isIdle
    {
      this.session := session;
      mission := null;
      isIdle := true;
    }

    /**
     * `run_mission` with the mission thread run to the end of `execute`: the executor is
     * idle again only if `execute` returned normally.
     */
    method RunMission(m: Mission, endTs: int, cancels: set<int>)
      requires m.session == session
      modifies this, m, session
      ensures mission == old(mission)
      ensures old(mission) != null ==> unchanged(this, m, session)
      ensures old(mission) == null ==>
        var run := RunSpec(old(m.View()), session.env, cancels, endTs);
        && m.View() == run.m
        && session.commands == old(session.commands) + run.commands
        && session.published == old(session.published) + run.reports
        && isIdle == (run.outcome == Finished)
    {
      if mission != null {
        // "Can't start mission while other mission is running"
        return;
      }
      isIdle := false;
      var outcome := m.Execute(endTs, cancels);
      if outcome == Finished {
        isIdle := true;
      }
    }

    /**
     * `cancel_mission`: an id that does not match only logs a warning, and the current
     * mission is cancelled anyway; with no mission, `self.mission.cancel()` raises.
     */
    method CancelMission(missionId: string) returns (raised: Option<PyError>)
      modifies this, mission
      ensures old(mission) == null ==> raised == Some(AttributeError) && unchanged(this)
      ensures old(mission) != null ==>
        && raised == None && mission == null && isIdle
        && old(mission).View() == old(mission.View()).(state := Aborted)
    {
      if mission == null {
        return Some(AttributeError);
      }
      mission.Cancel();
      mission := null;
      isIdle := true;
      return None;
    }
  }

  /** The mission a run-mission argument string starts, if its checks, its parse and its construction succeed. */
  function Launch(args: string, parse: string -> Option<Json>, startTs: int): (r: Option<MissionView>)
    ensures ' ' !in args ==> r.None?
    ensures r.Some? <==> && ParseRunMission(args).Some?
                         && parse(ParseRunMission(args).value.1).Some?
                         && NewMission(ParseRunMission(args).value.0, parse(ParseRunMission(args).value.1).value, startTs).Ok?
    ensures r.Some? ==> r.value == NewMission(ParseRunMission(args).value.0, parse(ParseRunMission(args).value.1).value, startTs).value
    ensures r.Some? ==> r.value.id == ParseRunMission(args).value.0
    ensures r.Some? ==> r.value.state == Starting && r.value.status == StatusOk && r.value.data == map[]
  {
    match ParseRunMission(args)
    case None => None
    case Some((id, program)) =>
      match parse(program)
      case None => None
      case Some(json) =>
        match NewMission(id, json, startTs)
        case Err(_) => None
        case Ok(view) => Some(view)
  }

  class MissionsModule {
    const session: RobotSession
    const executor: MissionExecutor

    constructor (session: RobotSession)
      ensures this.session == session && executor.session == session
      ensures executor.mission == null && executor.isIdle && fresh(executor)
    {
      this.session := session;
      executor := new MissionExecutor(session);
    }

    ghost predicate Valid()
    {
      executor.session == session
    }

    /**
     * `command_callback`. `parse` stands for `json.loads` (None when it raises); `startTs`
     * and `endTs` for the two readings of the clock; `cancels` as in `Mission.Execute`.
     */
    method CommandCallback(commandName: string, args: string, parse: string -> Option<Json>,
                           startTs: int, endTs: int, cancels: set<int>) returns (raised: Option<PyError>)
      requires Valid()
      modifies executor, session, executor.mission
      ensures executor.mission == (if Classify(commandName, args).CancelMission? && CancelArgument(Classify(commandName, args).args).Some?
                                   then null else old(executor.mission))
      ensures !Classify(commandName, args).RunMission? ==>
        session.commands == old(session.commands) && session.published == old(session.published)
      ensures !Classify(commandName, args).RunMission? && !Classify(commandName, args).CancelMission? ==>
        raised == None && unchanged(executor)
      ensures Classify(commandName, args).RunMission? ==>
        raised == None && RunEffect(Classify(commandName, args).args, parse, startTs, endTs, cancels, old(executor.mission),
                                    old(executor.isIdle), executor.isIdle, old(session.commands), session.commands,
                                    old(session.published), session.published, session.env)
      ensures Classify(commandName, args).CancelMission? ==>
        raised == CancelEffect(Classify(commandName, args).args, old(executor.mission))
      ensures Classify(commandName, args).CancelMission? && CancelArgument(Classify(commandName, args).args).Some?
              && old(executor.mission) != null ==>
        && executor.isIdle
        && old(executor.mission).View() == old(executor.mission.View()).(state := Aborted)
      ensures Classify(commandName, args).CancelMission?
              && (CancelArgument(Classify(commandName, args).args).None? || old(executor.mission) == null) ==>
        unchanged(executor)
      ensures old(executor.mission) != null
              && !(Classify(commandName, args).CancelMission? && CancelArgument(Classify(commandName, args).args).Some?) ==>
        unchanged(old(executor.mission))
    {
      var request := Classify(commandName, args);
      match request
      case Ignored => raised := None;
      case Pause => raised := None;
      case Resume => raised := None;
      case Event(_) => raised := None;
      case RunMission(runArgs) =>
        HandleRunMission(runArgs, parse, startTs, endTs, cancels);
        raised := None;
      case CancelMission(cancelArgs) =>
        raised := HandleCancelMission(cancelArgs);
    }

    /** `handle_run_mission`: a failed argument check, parse or construction logs an error and starts nothing. */
    method HandleRunMission(args: string, parse: string -> Option<Json>, startTs: int, endTs: int, cancels: set<int>)
      requires Valid()
      modifies executor, session
      ensures executor.mission == old(executor.mission)
      ensures RunEffect(args, parse, startTs, endTs, cancels, old(executor.mission), old(executor.isIdle), executor.isIdle,
                        old(session.commands), session.commands, old(session.published), session.published, session.env)
    {
      var request := ParseRunMission(args);
      if request.None? {
        return;
      }
      var (id, programText) := request.value;
      var program := parse(programText);
      if program.None? {
        return;
      }
      var view := NewMission(id, program.value, startTs);
      if view.Err? {
        return;
      }
      var mission := new Mission(id, view.value.missionLabel, view.value.steps, session, startTs);
      executor.RunMission(mission, endTs, cancels);
    }

    /** `handle_cancel_mission`: only an argument string of length one reaches the executor, as that one character. */
    method HandleCancelMission(args: string) returns (raised: Option<PyError>)
      requires Valid()
      modifies executor, executor.mission
      ensures raised == CancelEffect(args, old(executor.mission))
      ensures executor.mission == if |args| == 1 then null else old(executor.mission)
      ensures |args| != 1 || old(executor.mission) == null ==> unchanged(executor)
      ensures |args| != 1 && old(executor.mission) != null ==> unchanged(old(executor.mission))
      ensures |args| == 1 && old(executor.mission) != null ==>
        && executor.isIdle
        && old(executor.mission).View() == old(executor.mission.View()).(state := Aborted)
    {
      var id := CancelArgument(args);
      if id.None? {
        return None;
      }
      raised := executor.CancelMission(id.value);
    }
  }

  /** What a run-mission request does to the executor and the session. */
  ghost predicate RunEffect(args: string, parse: string -> Option<Json>, startTs: int, endTs: int, cancels: set<int>,
                            mission: Mission?, idleBefore: bool, idleAfter: bool,
                            commandsBefore: seq<Command>, commandsAfter: seq<Command>,
                            publishedBefore: seq<Report>, publishedAfter: seq<Report>, env: SessionEnv)
  {
    var launch := Launch(args, parse, startTs);
    if launch.None? || mission != null then
      idleAfter == idleBefore && commandsAfter == commandsBefore && publishedAfter == publishedBefore
    else
      var run := RunSpec(launch.value, env, cancels, endTs);
      && commandsAfter == commandsBefore + run.commands
      && publishedAfter == publishedBefore + run.reports
      && idleAfter == (run.outcome == Finished)
  }

  /** What a cancel request raises: nothing when its argument is rejected, AttributeError when no mission is recorded. */
  function CancelEffect(args: string, mission: Mission?): Option<PyError>
  {
    if |args| != 1 then None
    else if mission == null then Some(AttributeError)
    else None
  }

  /**
   * A fresh module receives a run-mission command for mission "7" and then a cancel
   * for "7". Whatever the program and however the run ends, the cancel raises
   * AttributeError: `run_mission` never records the mission it starts.
   */
  method RunThenCancel(env: SessionEnv, program: string, parse: string -> Option<Json>,
                       startTs: int, endTs: int, cancels: set<int>) returns (raised: Option<PyError>)
    ensures raised == Some(AttributeError)
  {
    var session := new RobotSession(env);
    var missions := new MissionsModule(session);
    RunMissionRoundTrip("7", program);
    var _ := missions.CommandCallback("message", CommandRunMission + " " + "7" + " " + program,
                                      parse, startTs, endTs, cancels);
    CancelNeedsOneCharacter("7");
    raised := missions.CommandCallback("message", CommandCancelMission + " " + "7", parse, startTs, endTs, {});
  }
}
