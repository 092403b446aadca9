/**
 * The state of a mission as a value, and the tracking report `Mission.build_report`
 * makes of it.
 */
module Reports {
  import opened Wrappers
  import opened Json
  import opened Text
  import opened Steps

  /** The `state` strings a mission goes through; `cancel()` also yields Aborted. */
  datatype MissionState = Starting | Executing | Completed | Aborted

  /** The `status` strings "OK" and "Error". */
  datatype Status = StatusOk | StatusError

  /** Every field of a `Mission` that a report or the engine reads. */
  datatype MissionView = MissionView(
    id: string,
    missionLabel: Json,
    startTs: int,
    endTs: Option<int>,
    steps: seq<Step>,
    state: MissionState,
    status: Status,
    currentStepIdx: int,
    currentStep: Option<Step>,
    data: map<string, Json>)

  /** One entry `{"taskId": str(i), "label": step.label}` of a report's "tasks". */
  datatype Task = Task(taskId: string, taskLabel: Json)

  /**
   * The dict `build_report` returns: `currentTaskId` and `endTs` are keys that may be
   * absent. `data` is a snapshot of the mission's data when the report was built.
   */
  datatype Report = Report(
    missionId: string,
    inProgress: bool,
    state: MissionState,
    missionLabel: Json,
    startTs: int,
    data: map<string, Json>,
    status: Status,
    currentTaskId: Option<string>,
    tasks: seq<Task>,
    endTs: Option<int>,
    completedPercent: real)

  /** The report's "tasks": one entry per step, in order, whose id is the decimal text of its position. */
  function Tasks(steps: seq<Step>): (tasks: seq<Task>)
    ensures |tasks| == |steps|
    ensures forall i :: 0 <= i < |steps| ==> tasks[i].taskId == NatToString(i)
    ensures forall i :: 0 <= i < |steps| ==> tasks[i].taskLabel == steps[i].stepLabel
  {
    seq(|steps|, i requires 0 <= i < |steps| => Task(IntToString(i), steps[i].stepLabel))
  }

  /**
   * `build_report`. `completedPercent` is `current_step_idx / len(steps)`, computed
   * exactly here; with no steps that division raises ZeroDivisionError.
   */
  function BuildReport(m: MissionView): (r: Result<Report, PyError>)
    ensures r.Err? <==> |m.steps| == 0
    ensures r.Err? ==> r.error == ZeroDivisionError
    ensures r.Ok? ==> (r.value.inProgress <==> m.state == Executing)
    ensures r.Ok? ==> (r.value.currentTaskId.Some? <==> m.state == Executing)
    ensures r.Ok? ==> |r.value.tasks| == |m.steps|
    ensures r.Ok? && m.state == Executing && 0 <= m.currentStepIdx < |m.steps|
            ==> r.value.currentTaskId == Some(r.value.tasks[m.currentStepIdx].taskId)
    ensures r.Ok? ==> forall i :: 0 <= i < |m.steps| ==> r.value.tasks[i].taskLabel == m.steps[i].stepLabel
    ensures r.Ok? ==> r.value.missionId == m.id && r.value.missionLabel == m.missionLabel
    ensures r.Ok? ==> r.value.startTs == m.startTs && r.value.endTs == m.endTs
    ensures r.Ok? ==> r.value.tasks == Tasks(m.steps)
    ensures r.Ok? && m.state == Executing ==> r.value.currentTaskId == Some(IntToString(m.currentStepIdx))
    ensures r.Ok? ==> r.value.completedPercent == Ratio(m.currentStepIdx, |m.steps|)
    ensures r.Ok? ==> r.value.data == m.data && r.value.status == m.status && r.value.state == m.state
  {
    if |m.steps| == 0 then Err(ZeroDivisionError)
    else
      var executing := m.state == Executing;
      Ok(Report(
        missionId := m.id,
        inProgress := executing,
        state := m.state,
        missionLabel := m.missionLabel,
        startTs := m.startTs,
        data := m.data,
        status := m.status,
        currentTaskId := if executing then Some(IntToString(m.currentStepIdx)) else None,
        tasks := Tasks(m.steps),
        endTs := m.endTs,
        completedPercent := Ratio(m.currentStepIdx, |m.steps|)))
  }

  /** `idx / n` as an exact ratio. */
  function Ratio(idx: int, n: nat): (r: real)
    requires n > 0
    ensures r * (n as real) == idx as real
    ensures 0 <= idx <= n ==> 0.0 <= r <= 1.0
    ensures r == 1.0 <==> idx == n
  {
    idx as real / n as real
  }

  /** Each task id reads back as the task's position, so task ids are distinct and in step order. */
  lemma TaskIdsAreIndices(steps: seq<Step>)
    ensures forall i :: 0 <= i < |steps| ==> ParseDecimal(Tasks(steps)[i].taskId) == i
    ensures forall i, j :: 0 <= i < j < |steps| ==> Tasks(steps)[i].taskId != Tasks(steps)[j].taskId
  {
    forall i | 0 <= i < |steps|
      ensures ParseDecimal(Tasks(steps)[i].taskId) == i
    {
      ParseNatToString(i);
    }
  }
}
