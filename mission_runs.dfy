/**
 * What one call of `Mission.execute` does, as a function of the mission's state
 * before the call and of what the robot session and other threads do meanwhile.
 * The `Mission.Execute` method is proved to follow `RunSpec`; the lemmas below
 * state what a run promises.
 */
module MissionRuns {
  import opened Wrappers
  import opened Json
  import opened Types
  import opened Steps
  import opened Reports
  import opened Text

  /**
   * What the robot session does when the engine calls it: whether a dispatched
   * command raises, and whether `reached_waypoint(waypoint, tolerance)` holds at
   * the k-th poll of a NavigateTo step. Only the first `maxPolls` polls of a step
   * are observed; a waypoint not reached by then keeps the mission waiting.
   */
  datatype SessionEnv = SessionEnv(
    dispatchRaises: Command -> bool,
    reached: (Pose, SpatialTolerance, nat) -> bool,
    maxPolls: nat)

  /** How a step's `execute` ends: it returns, it raises, or it is still polling for its waypoint. */
  datatype StepOutcome = Returned | Raised | NeverReached

  /**
   * How a call of `execute` ends: `Running` while its loop goes on, `Finished` once the
   * final report is out, `Hung` inside a NavigateTo step whose waypoint is not reached,
   * `Crashed` when building the final report raised.
   */
  datatype Outcome = Running | Finished | Hung | Crashed

  ghost predicate ReachedWithin(env: SessionEnv, w: Pose, tol: SpatialTolerance)
  {
    exists k :: 0 <= k < env.maxPolls && env.reached(w, tol, k)
  }

  /** The outcome of each step class's `execute`. */
  ghost function StepOutcomeOf(s: Step, env: SessionEnv): StepOutcome
  {
    if s.WaitSeconds? then (if SleepAccepts(s.seconds) then Returned else Raised)
    else if s.SetData? then (if s.data.JObj? then Returned else Raised)
    else if env.dispatchRaises(StepCommands(s)[0]) then Raised
    else if s.NavigateTo? && !ReachedWithin(env, s.waypoint, s.tolerance) then NeverReached
    else Returned
  }

  /**
   * How each step class's `execute` ends: only NavigateTo can wait for ever; a dispatching
   * step raises exactly when its dispatch raises; WaitSeconds returns exactly when `time.sleep`
   * accepts its argument, and SetData exactly when its payload is a dict.
   */
  lemma StepOutcomeCases(s: Step, env: SessionEnv)
    ensures StepOutcomeOf(s, env) == NeverReached ==> s.NavigateTo?
    ensures !s.WaitSeconds? && !s.SetData? ==> (StepOutcomeOf(s, env) == Raised <==> env.dispatchRaises(StepCommands(s)[0]))
    ensures s.NavigateTo? ==>
      (StepOutcomeOf(s, env) == Returned <==> !env.dispatchRaises(StepCommands(s)[0]) && ReachedWithin(env, s.waypoint, s.tolerance))
    ensures s.WaitSeconds? ==> (StepOutcomeOf(s, env) == Returned <==> SleepAccepts(s.seconds))
    ensures s.SetData? ==> (StepOutcomeOf(s, env) == Returned <==> s.data.JObj?)
  {
  }

  /** What `execute` has done so far: the mission's state, the commands dispatched and the reports published. */
  datatype Trace = Trace(m: MissionView, commands: seq<Command>, reports: seq<Report>, outcome: Outcome)

  /** The fields `execute` never writes. */
  predicate SameMission(a: MissionView, b: MissionView)
  {
    a.id == b.id && a.missionLabel == b.missionLabel && a.startTs == b.startTs
    && a.endTs == b.endTs && a.steps == b.steps
  }

  /** The loop stops at its next check: a step raised or is still waiting, or the state left "Executing". */
  predicate Settled(t: Trace)
  {
    t.outcome != Running || t.m.state != Executing
  }

  /**
   * Iteration `i` of the loop of `execute`: check the state, record the current step,
   * publish a report, run the step. A `cancel()` from another thread that arrives
   * while step `i` runs is listed in `cancels`: it sets the state to Aborted, also
   * while a NavigateTo step keeps polling, and the loop sees it at its next check.
   * A step that raises sets Aborted and Error whether or not a cancel came.
   */
  ghost function Iteration(t: Trace, i: nat, env: SessionEnv, cancels: set<int>): (r: Trace)
    requires i < |t.m.steps|
    ensures SameMission(r.m, t.m)
  {
    if Settled(t) then t
    else
      var s := t.m.steps[i];
      var current := t.m.(currentStepIdx := i, currentStep := Some(s));
      var reports := t.reports + [BuildReport(current).value];
      var commands := t.commands + StepCommands(s);
      match StepOutcomeOf(s, env)
      case Raised => Trace(current.(state := Aborted, status := StatusError), commands, reports, Running)
      case NeverReached => Trace(if i in cancels then current.(state := Aborted) else current, commands, reports, Hung)
      case Returned =>
        var after := current.(data := DataEffect(s, current.data));
        Trace(if i in cancels then after.(state := Aborted) else after, commands, reports, Running)
  }

  /** The first `k` iterations of the loop. */
  ghost function Iterations(t: Trace, k: nat, env: SessionEnv, cancels: set<int>): (r: Trace)
    requires k <= |t.m.steps|
    ensures SameMission(r.m, t.m)
  {
    if k == 0 then t
    else Iteration(Iterations(t, k - 1, env, cancels), k - 1, env, cancels)
  }

  function Start(m: MissionView): Trace
  {
    Trace(m.(state := Executing), [], [], Running)
  }

  /** After the loop: "Completed" and one step further if still executing, then the end timestamp. */
  function Finish(v: MissionView, endTs: int): (r: MissionView)
    ensures r.endTs == Some(endTs) && r.status == v.status && r.data == v.data && r.steps == v.steps
    ensures v.state == Executing ==> r.state == Completed && r.currentStepIdx == v.currentStepIdx + 1
    ensures v.state != Executing ==> r.state == v.state && r.currentStepIdx == v.currentStepIdx
  {
    var done := if v.state == Executing then v.(state := Completed, currentStepIdx := v.currentStepIdx + 1) else v;
    done.(endTs := Some(endTs))
  }

  /** The whole of `execute`: the loop, then "Completed" if still executing, the end timestamp and the final report. */
  ghost function RunSpec(m: MissionView, env: SessionEnv, cancels: set<int>, endTs: int): (r: Trace)
    ensures SameMission(r.m, m.(endTs := r.m.endTs))
    ensures r.outcome != Running
  {
    var t := Iterations(Start(m), |m.steps|, env, cancels);
    if t.outcome == Hung then t
    else
      var last := Finish(t.m, endTs);
      match BuildReport(last)
      case Err(_) => Trace(last, t.commands, t.reports, Crashed)
      case Ok(report) => Trace(last, t.commands, t.reports + [report], Finished)
  }

  // ---------------------------------------------------------------------------
  // Reference descriptions of an undisturbed run

  /** The commands the given steps dispatch, in order. */
  function CommandsOf(steps: seq<Step>): seq<Command>
  {
    if steps == [] then []
    else CommandsOf(steps[..|steps| - 1]) + StepCommands(steps[|steps| - 1])
  }

  /** The mission's data after the given steps have all returned. */
  function DataAfter(data: map<string, Json>, steps: seq<Step>): map<string, Json>
  {
    if steps == [] then data
    else DataEffect(steps[|steps| - 1], DataAfter(data, steps[..|steps| - 1]))
  }

  ghost predicate AllReturn(steps: seq<Step>, env: SessionEnv, k: nat)
    requires k <= |steps|
  {
    forall j :: 0 <= j < k ==> StepOutcomeOf(steps[j], env) == Returned
  }

  predicate NoCancelBefore(cancels: set<int>, k: nat)
  {
    forall j :: 0 <= j < k ==> j !in cancels
  }

  /** The report published just before step `j` of an undisturbed run. */
  function ReportBefore(m: MissionView, j: nat): (r: Report)
    requires j < |m.steps|
    ensures r.state == Executing && r.inProgress && r.currentTaskId == Some(IntToString(j))
    ensures r.completedPercent == Ratio(j, |m.steps|)
    ensures r.data == DataAfter(m.data, m.steps[..j]) && r.status == m.status
  {
    BuildReport(m.(state := Executing, currentStepIdx := j, currentStep := Some(m.steps[j]),
                   data := DataAfter(m.data, m.steps[..j]))).value
  }

  /** The reports published before steps 0 .. k-1 of an undisturbed run. */
  function StepReports(m: MissionView, k: nat): (r: seq<Report>)
    requires k <= |m.steps|
    ensures |r| == k
    ensures forall j :: 0 <= j < k ==> r[j] == ReportBefore(m, j)
  {
    if k == 0 then [] else StepReports(m, k - 1) + [ReportBefore(m, k - 1)]
  }

  // ---------------------------------------------------------------------------
  // Lemmas

  /** Once the loop has stopped, the remaining iterations change nothing. */
  lemma {:induction false} IterationsSettled(t: Trace, i: nat, j: nat, env: SessionEnv, cancels: set<int>)
    requires i <= j <= |t.m.steps|
    requires Settled(Iterations(t, i, env, cancels))
    ensures Iterations(t, j, env, cancels) == Iterations(t, i, env, cancels)
    decreases j
  {
    if j > i {
      IterationsSettled(t, i, j - 1, env, cancels);
    }
  }

  /** While every step returns and nobody cancels, the loop runs the steps in order, reporting before each. */
  lemma {:induction false} IterationsUndisturbed(m: MissionView, k: nat, env: SessionEnv, cancels: set<int>)
    requires k <= |m.steps|
    requires AllReturn(m.steps, env, k) && NoCancelBefore(cancels, k)
    ensures var t := Iterations(Start(m), k, env, cancels);
      && t.outcome == Running && t.m.state == Executing && t.m.status == m.status
      && t.m.data == DataAfter(m.data, m.steps[..k])
      && t.commands == CommandsOf(m.steps[..k])
      && t.reports == StepReports(m, k)
      && (k == 0 ==> t.m.currentStepIdx == m.currentStepIdx && t.m.currentStep == m.currentStep)
      && (k > 0 ==> t.m.currentStepIdx == k - 1 && t.m.currentStep == Some(m.steps[k - 1]))
  {
    if k == 0 {
      assert m.steps[..0] == [];
    } else {
      IterationsUndisturbed(m, k - 1, env, cancels);
      var steps := m.steps;
      var t := Iterations(Start(m), k - 1, env, cancels);
      assert t.m.(currentStepIdx := k - 1, currentStep := Some(steps[k - 1])) == ViewBefore(m, k - 1);
      assert StepOutcomeOf(steps[k - 1], env) == Returned && k - 1 !in cancels;
      UndisturbedStep(m, k - 1, env, cancels);
      PrefixSnoc(m, k - 1);
      assert steps[..k][..k - 1] == steps[..k - 1];
      assert steps[..k][k - 1] == steps[k - 1];
    }
  }

  /** One more undisturbed iteration, from the view its step is reported from. */
  lemma UndisturbedStep(m: MissionView, k: nat, env: SessionEnv, cancels: set<int>)
    requires k < |m.steps|
    requires StepOutcomeOf(m.steps[k], env) == Returned && k !in cancels
    requires var t := Iterations(Start(m), k, env, cancels);
      !Settled(t) && t.m.(currentStepIdx := k, currentStep := Some(m.steps[k])) == ViewBefore(m, k)
    ensures var t := Iterations(Start(m), k, env, cancels);
      var v := ViewBefore(m, k);
      Iterations(Start(m), k + 1, env, cancels)
        == Trace(v.(data := DataEffect(m.steps[k], v.data)), t.commands + StepCommands(m.steps[k]),
                 t.reports + [BuildReport(v).value], Running)
  {
    var t := Iterations(Start(m), k, env, cancels);
    assert Iterations(Start(m), k + 1, env, cancels) == Iteration(t, k, env, cancels);
  }

  /** The view step `k` is reported from, after an undisturbed prefix. */
  function ViewBefore(m: MissionView, k: nat): MissionView
    requires k < |m.steps|
  {
    m.(state := Executing, currentStepIdx := k, currentStep := Some(m.steps[k]), data := DataAfter(m.data, m.steps[..k]))
  }

  lemma UndisturbedView(m: MissionView, k: nat, env: SessionEnv, cancels: set<int>)
    requires k < |m.steps|
    requires AllReturn(m.steps, env, k) && NoCancelBefore(cancels, k)
    ensures var t := Iterations(Start(m), k, env, cancels);
      && !Settled(t) && t.commands == CommandsOf(m.steps[..k]) && t.reports == StepReports(m, k)
      && t.m.(currentStepIdx := k, currentStep := Some(m.steps[k])) == ViewBefore(m, k)
  {
    IterationsUndisturbed(m, k, env, cancels);
  }

  lemma PrefixSnoc(m: MissionView, k: nat)
    requires k < |m.steps|
    ensures CommandsOf(m.steps[..k + 1]) == CommandsOf(m.steps[..k]) + StepCommands(m.steps[k])
    ensures StepReports(m, k + 1) == StepReports(m, k) + [BuildReport(ViewBefore(m, k)).value]
  {
    assert m.steps[..k + 1][..k] == m.steps[..k];
    assert m.steps[..k + 1][k] == m.steps[k];
  }

  /** After an undisturbed prefix of `k` steps, iteration `k` reports, dispatches step `k`'s commands and applies its outcome. */
  lemma NextIteration(m: MissionView, k: nat, env: SessionEnv, cancels: set<int>)
    requires k < |m.steps|
    requires AllReturn(m.steps, env, k) && NoCancelBefore(cancels, k)
    ensures var t := Iterations(Start(m), k + 1, env, cancels);
      && t.commands == CommandsOf(m.steps[..k + 1])
      && t.reports == StepReports(m, k + 1)
      && t.m.currentStepIdx == k
      && (StepOutcomeOf(m.steps[k], env) == Raised ==>
            t.outcome == Running && t.m.state == Aborted && t.m.status == StatusError)
      && (StepOutcomeOf(m.steps[k], env) == NeverReached ==>
            t.outcome == Hung && t.m.state == (if k in cancels then Aborted else Executing))
      && (StepOutcomeOf(m.steps[k], env) == Returned ==>
            && t.outcome == Running && t.m.status == m.status
            && t.m.state == (if k in cancels then Aborted else Executing))
  {
    UndisturbedView(m, k, env, cancels);
    PrefixSnoc(m, k);
    var t := Iterations(Start(m), k, env, cancels);
    var next := Iterations(Start(m), k + 1, env, cancels);
    assert next == Iteration(t, k, env, cancels);
    var current := ViewBefore(m, k);
    var commands := t.commands + StepCommands(m.steps[k]);
    var reports := t.reports + [BuildReport(current).value];
    match StepOutcomeOf(m.steps[k], env)
    case Raised =>
      assert next == Trace(current.(state := Aborted, status := StatusError), commands, reports, Running);
    case NeverReached =>
      assert next == Trace(if k in cancels then current.(state := Aborted) else current, commands, reports, Hung);
    case Returned =>
      var after := current.(data := DataEffect(m.steps[k], current.data));
      assert next == Trace(if k in cancels then after.(state := Aborted) else after, commands, reports, Running);
  }

  /** `RunSpec` once the loop is over: the final report is built from the finished view, or building it raises. */
  lemma AfterLoop(m: MissionView, env: SessionEnv, cancels: set<int>, endTs: int)
    ensures var t := Iterations(Start(m), |m.steps|, env, cancels);
      var last := Finish(t.m, endTs);
      && (t.outcome == Hung ==> RunSpec(m, env, cancels, endTs) == t)
      && (t.outcome != Hung && BuildReport(last).Err? ==>
            RunSpec(m, env, cancels, endTs) == Trace(last, t.commands, t.reports, Crashed))
      && (t.outcome != Hung && BuildReport(last).Ok? ==>
            RunSpec(m, env, cancels, endTs) == Trace(last, t.commands, t.reports + [BuildReport(last).value], Finished))
  {
  }

  /** The final report of a completed mission: not in progress, no current task, 100% complete. */
  lemma CompletedReport(v: MissionView)
    requires |v.steps| > 0 && v.state == Completed && v.currentStepIdx == |v.steps|
    ensures var r := BuildReport(v);
      && r.Ok? && r.value.state == Completed && !r.value.inProgress && r.value.currentTaskId == None
      && r.value.endTs == v.endTs && r.value.completedPercent == 1.0
  {
  }

  /** The loop of an undisturbed run goes through every step and leaves the state "Executing". */
  lemma UndisturbedLoop(m: MissionView, env: SessionEnv, cancels: set<int>)
    requires |m.steps| > 0
    requires AllReturn(m.steps, env, |m.steps|) && NoCancelBefore(cancels, |m.steps|)
    ensures var t := Iterations(Start(m), |m.steps|, env, cancels);
      && t.outcome == Running && t.m.state == Executing && t.m.status == m.status
      && t.m.currentStepIdx == |m.steps| - 1 && t.m.steps == m.steps
      && t.m.data == DataAfter(m.data, m.steps)
      && t.commands == CommandsOf(m.steps)
      && t.reports == StepReports(m, |m.steps|)
  {
    IterationsUndisturbed(m, |m.steps|, env, cancels);
    assert m.steps[..|m.steps|] == m.steps;
  }

  /** A run in which every step returns and nobody cancels completes, with one report per step and one final report. */
  lemma CompletedRun(m: MissionView, env: SessionEnv, cancels: set<int>, endTs: int)
    requires |m.steps| > 0
    requires AllReturn(m.steps, env, |m.steps|) && NoCancelBefore(cancels, |m.steps|)
    ensures var r := RunSpec(m, env, cancels, endTs);
      && r.outcome == Finished
      && r.m.state == Completed && r.m.status == m.status
      && r.m.currentStepIdx == |m.steps| && r.m.endTs == Some(endTs)
      && r.m.data == DataAfter(m.data, m.steps)
      && r.commands == CommandsOf(m.steps)
      && |r.reports| == |m.steps| + 1
      && r.reports[..|m.steps|] == StepReports(m, |m.steps|)
      && r.reports[|m.steps|].state == Completed && !r.reports[|m.steps|].inProgress
      && r.reports[|m.steps|].currentTaskId == None
      && r.reports[|m.steps|].endTs == Some(endTs)
      && r.reports[|m.steps|].completedPercent == 1.0
  {
    var n := |m.steps|;
    UndisturbedLoop(m, env, cancels);
    var t := Iterations(Start(m), n, env, cancels);
    var last := Finish(t.m, endTs);
    assert last.state == Completed && last.currentStepIdx == n;
    CompletedReport(last);
    var report := BuildReport(last).value;
    AfterLoop(m, env, cancels, endTs);
    var r := RunSpec(m, env, cancels, endTs);
    assert r == Trace(last, t.commands, t.reports + [report], Finished);
    assert r.reports[..n] == t.reports;
    assert r.reports[n] == report;
  }

  /** With no steps the loop does nothing and building the final report divides by zero. */
  lemma EmptyProgramCrashes(m: MissionView, env: SessionEnv, cancels: set<int>, endTs: int)
    requires |m.steps| == 0
    ensures var r := RunSpec(m, env, cancels, endTs);
      && r.outcome == Crashed && r.reports == [] && r.commands == []
      && r.m.state == Completed && r.m.currentStepIdx == m.currentStepIdx + 1 && r.m.endTs == Some(endTs)
  {
  }

  /** A step that raises aborts the run with status Error; no later step runs and the final report is still published. */
  lemma FailedRun(m: MissionView, env: SessionEnv, cancels: set<int>, endTs: int, k: nat)
    requires k < |m.steps|
    requires AllReturn(m.steps, env, k) && NoCancelBefore(cancels, k)
    requires StepOutcomeOf(m.steps[k], env) == Raised
    ensures var r := RunSpec(m, env, cancels, endTs);
      && r.outcome == Finished
      && r.m.state == Aborted && r.m.status == StatusError
      && r.m.currentStepIdx == k && r.m.endTs == Some(endTs)
      && r.commands == CommandsOf(m.steps[..k + 1])
      && |r.reports| == k + 2
      && r.reports[..k + 1] == StepReports(m, k + 1)
      && r.reports[k + 1].state == Aborted && !r.reports[k + 1].inProgress
      && r.reports[k + 1].status == StatusError && r.reports[k + 1].currentTaskId == None
  {
    NextIteration(m, k, env, cancels);
    IterationsSettled(Start(m), k + 1, |m.steps|, env, cancels);
    var t := Iterations(Start(m), k + 1, env, cancels);
    var last := Finish(t.m, endTs);
    var report := BuildReport(last).value;
    assert RunSpec(m, env, cancels, endTs) == Trace(last, t.commands, t.reports + [report], Finished);
    assert (t.reports + [report])[..k + 1] == t.reports;
  }

  /** A cancel() arriving while step k runs stops the loop before step k+1; the state is Aborted and the status stays. */
  lemma CancelledRun(m: MissionView, env: SessionEnv, cancels: set<int>, endTs: int, k: nat)
    requires k < |m.steps|
    requires AllReturn(m.steps, env, k + 1) && NoCancelBefore(cancels, k) && k in cancels
    ensures var r := RunSpec(m, env, cancels, endTs);
      && r.outcome == Finished
      && r.m.state == Aborted && r.m.status == m.status
      && r.m.currentStepIdx == k && r.m.endTs == Some(endTs)
      && r.commands == CommandsOf(m.steps[..k + 1])
      && |r.reports| == k + 2
      && r.reports[..k + 1] == StepReports(m, k + 1)
      && r.reports[k + 1].state == Aborted && !r.reports[k + 1].inProgress
  {
    NextIteration(m, k, env, cancels);
    IterationsSettled(Start(m), k + 1, |m.steps|, env, cancels);
  }

  /**
   * A NavigateTo step whose waypoint is never reached keeps the run waiting: no final report,
   * and the state is still Executing unless a cancel() arrived while it waits.
   */
  lemma HungRun(m: MissionView, env: SessionEnv, cancels: set<int>, endTs: int, k: nat)
    requires k < |m.steps|
    requires AllReturn(m.steps, env, k) && NoCancelBefore(cancels, k)
    requires StepOutcomeOf(m.steps[k], env) == NeverReached
    ensures m.steps[k].NavigateTo?
    ensures var r := RunSpec(m, env, cancels, endTs);
      && r.outcome == Hung
      && r.m.state == (if k in cancels then Aborted else Executing)
      && r.m.currentStepIdx == k && r.m.endTs == m.endTs
      && r.commands == CommandsOf(m.steps[..k + 1])
      && r.reports == StepReports(m, k + 1)
  {
    NextIteration(m, k, env, cancels);
    IterationsSettled(Start(m), k + 1, |m.steps|, env, cancels);
  }
}
