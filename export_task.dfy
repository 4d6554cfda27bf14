/*
 * `ExportTask`: one import job in the music picker's list, with its
 * progress fraction and lifecycle status.
 */
module ExportTasks {
  import opened Foundation
  import opened SwiftArray

  datatype Status = Waiting | Exporting | Completed | Failed(reason: string)

  /** `id` and `fileName` are `let` constants; `progress` and `status` are `var`. */
  datatype ExportTask = ExportTask(id: Uuid, fileName: string, progress: real, status: Status)

  /** `ExportTask.init(id:fileName:progress:status:)` with its default arguments. */
  function NewExportTask(id: Uuid, fileName: string, progress: real := 0.0, status: Status := Waiting): ExportTask
  {
    ExportTask(id, fileName, progress, status)
  }

  /** A task made with the defaults starts waiting, at no progress. */
  lemma NewExportTaskDefaults(id: Uuid, fileName: string)
    ensures NewExportTask(id, fileName) == ExportTask(id, fileName, 0.0, Waiting)
  {
  }

  /** `exportTasks.firstIndex(where: { $0.id == taskId })`. */
  function TaskIndex(tasks: seq<ExportTask>, id: Uuid): (r: Option<nat>)
    ensures r.Some? ==> r.value < |tasks| && tasks[r.value].id == id
    ensures r.Some? ==> forall j :: 0 <= j < r.value ==> tasks[j].id != id
    ensures r.None? <==> forall j :: 0 <= j < |tasks| ==> tasks[j].id != id
  {
    FirstIndex(tasks, (t: ExportTask) => t.id == id)
  }

  /** Two lists with the same ids in the same places find a task at the same index. */
  lemma {:induction false} TaskIndexFollowsIds(a: seq<ExportTask>, b: seq<ExportTask>, id: Uuid)
    requires |a| == |b| && forall i :: 0 <= i < |a| ==> a[i].id == b[i].id
    ensures TaskIndex(a, id) == TaskIndex(b, id)
  {
  }

  /** `updateTaskStatus(taskId:status:)` on the list. */
  function WithStatus(tasks: seq<ExportTask>, id: Uuid, status: Status): (r: seq<ExportTask>)
    ensures |r| == |tasks| && TaskIndex(r, id) == TaskIndex(tasks, id)
    ensures TaskIndex(tasks, id).Some? ==> r[TaskIndex(tasks, id).value].status == status
    ensures forall i :: 0 <= i < |r| ==>
              r[i].id == tasks[i].id && r[i].fileName == tasks[i].fileName && r[i].progress == tasks[i].progress
    ensures forall i :: 0 <= i < |r| && r[i] != tasks[i] ==>
              r[i].status == status && tasks[i].id == id
              && forall j :: 0 <= j < i ==> tasks[j].id != id
    ensures (exists i :: 0 <= i < |tasks| && tasks[i].id == id) ==>
              exists i :: 0 <= i < |r| && r[i].id == id && r[i].status == status
  {
    var r := match TaskIndex(tasks, id)
      case None => tasks
      case Some(i) => tasks[i := tasks[i].(status := status)];
    TaskIndexFollowsIds(r, tasks, id);
    r
  }

  /** `updateTaskProgress(taskId:progress:)` on the list. */
  function WithProgress(tasks: seq<ExportTask>, id: Uuid, progress: real): (r: seq<ExportTask>)
    ensures |r| == |tasks| && TaskIndex(r, id) == TaskIndex(tasks, id)
    ensures TaskIndex(tasks, id).Some? ==> r[TaskIndex(tasks, id).value].progress == progress
    ensures forall i :: 0 <= i < |r| ==>
              r[i].id == tasks[i].id && r[i].fileName == tasks[i].fileName && r[i].status == tasks[i].status
    ensures forall i :: 0 <= i < |r| && r[i] != tasks[i] ==>
              r[i].progress == progress && tasks[i].id == id
              && forall j :: 0 <= j < i ==> tasks[j].id != id
  {
    var r := match TaskIndex(tasks, id)
      case None => tasks
      case Some(i) => tasks[i := tasks[i].(progress := progress)];
    TaskIndexFollowsIds(r, tasks, id);
    r
  }

  /** `isExporting`: some task is exporting. */
  function AnyExporting(tasks: seq<ExportTask>): (r: bool)
    ensures r <==> exists i :: 0 <= i < |tasks| && tasks[i].status == Exporting
  {
    Contains(tasks, (t: ExportTask) => t.status == Exporting)
  }

  /**
   * `isExporting` after a status update: some task is exporting exactly when
   * the updated task was found and set to exporting, or another task already
   * was. So completing or failing the last exporting task turns it off.
   */
  lemma {:induction false} AnyExportingAfterStatus(tasks: seq<ExportTask>, id: Uuid, status: Status)
    ensures AnyExporting(WithStatus(tasks, id, status)) <==>
              || (TaskIndex(tasks, id).Some? && status == Exporting)
              || exists i :: 0 <= i < |tasks| && TaskIndex(tasks, id) != Some(i) && tasks[i].status == Exporting
  {
    var r := WithStatus(tasks, id, status);
    if TaskIndex(tasks, id).Some? && status == Exporting {
      assert r[TaskIndex(tasks, id).value].status == Exporting;
    }
    if i :| 0 <= i < |tasks| && TaskIndex(tasks, id) != Some(i) && tasks[i].status == Exporting {
      assert r[i] == tasks[i];
    }
  }

  /** `exportTasks.removeAll { $0.id == taskId }`: no task with the id is left. */
  function WithoutTask(tasks: seq<ExportTask>, id: Uuid): (r: seq<ExportTask>)
    ensures |r| <= |tasks|
    ensures forall i :: 0 <= i < |r| ==> r[i].id != id
  {
    RemoveAll(tasks, (t: ExportTask) => t.id == id)
  }

  /**
   * Pruning removes every task with that id and keeps every occurrence of
   * every other task.
   */
  lemma {:induction false} WithoutTaskRemovesOnlyThatId(tasks: seq<ExportTask>, id: Uuid, t: ExportTask)
    ensures multiset(WithoutTask(tasks, id))[t] == if t.id == id then 0 else multiset(tasks)[t]
  {
    RemoveAllCounts(tasks, (t: ExportTask) => t.id == id, t);
  }

  /**
   * `after` differs from `before` at most in the first task with the id, and
   * there only in progress and status.
   */
  predicate OnlyTaskChanged(before: seq<ExportTask>, after: seq<ExportTask>, id: Uuid)
  {
    && |after| == |before|
    && TaskIndex(after, id) == TaskIndex(before, id)
    && (forall i :: 0 <= i < |after| ==> after[i].id == before[i].id && after[i].fileName == before[i].fileName)
    && (forall i :: 0 <= i < |after| && TaskIndex(before, id) != Some(i) ==> after[i] == before[i])
  }

  /** Status and progress updates change only their task. */
  lemma UpdatesChangeOnlyTheTask(tasks: seq<ExportTask>, id: Uuid, status: Status, progress: real)
    ensures OnlyTaskChanged(tasks, WithStatus(tasks, id, status), id)
    ensures OnlyTaskChanged(tasks, WithProgress(tasks, id, progress), id)
  {
  }

  lemma OnlyTaskChangedTransitive(a: seq<ExportTask>, b: seq<ExportTask>, c: seq<ExportTask>, id: Uuid)
    requires OnlyTaskChanged(a, b, id) && OnlyTaskChanged(b, c, id)
    ensures OnlyTaskChanged(a, c, id)
  {
  }
}
