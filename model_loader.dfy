/**
  Background model downloads: a table from task id to the status record the
  status route reports. The download itself (`snapshot_download` on a
  worker thread) is external; how it ended is a parameter.
 */
module ModelLoader {
  import opened Wrappers

  /** The status record `{"status": ..., "model": ..., "error": ...}`; absent keys are None. */
  datatype TaskStatus = TaskStatus(status: string, model: Option<string>, error: Option<string>)

  const InProgress := "in_progress"
  const Completed := "completed"
  const Failed := "failed"
  const NotFound := "not_found"

  /** The record of a download just started. */
  function StartedStatus(modelId: string): TaskStatus {
    TaskStatus(InProgress, Some(modelId), None)
  }

  /** What `get_status` reports for an id it never handed out. */
  const NotFoundStatus := TaskStatus(NotFound, None, None)

  /** `self._status.get(task_id, {"status": "not_found"})`. */
  function Lookup(table: map<string, TaskStatus>, taskId: string): (s: TaskStatus)
    ensures taskId !in table ==> s.status == NotFound && s.model.None?
    ensures taskId in table ==> s == table[taskId]
  {
    if taskId in table then table[taskId] else NotFoundStatus
  }

  /** The table after `start` recorded `taskId` for `modelId`. */
  function Start(table: map<string, TaskStatus>, taskId: string, modelId: string): map<string, TaskStatus> {
    table[taskId := StartedStatus(modelId)]
  }

  /**
    The table after the download of `taskId` ended: with no error the
    record's status becomes "completed"; with one (`str(e)`) it becomes
    "failed" and gains the error. The other keys of the record stay.
   */
  function Finish(table: map<string, TaskStatus>, taskId: string, outcome: Option<string>): map<string, TaskStatus>
    requires taskId in table
  {
    var record := table[taskId];
    table[taskId := if outcome.None? then record.(status := Completed) else record.(status := Failed, error := outcome)]
  }

  /** A started task reports "in_progress" with its model; nothing else in the table changes. */
  lemma StartThenLookup(table: map<string, TaskStatus>, taskId: string, modelId: string, other: string)
    requires other != taskId
    ensures Lookup(Start(table, taskId, modelId), taskId) == TaskStatus(InProgress, Some(modelId), None)
    ensures Lookup(Start(table, taskId, modelId), other) == Lookup(table, other)
  {
  }

  /**
    A finished download reports "completed" or "failed" (with the error), keeps
    its model, and leaves every other task as it was.
   */
  lemma FinishTouchesOnlyItsTask(table: map<string, TaskStatus>, taskId: string, outcome: Option<string>, other: string)
    requires taskId in table && other != taskId
    ensures var s := Lookup(Finish(table, taskId, outcome), taskId);
      && s.model == table[taskId].model
      && (outcome.None? ==> s.status == Completed && s.error == table[taskId].error)
      && (outcome.Some? ==> s.status == Failed && s.error == outcome)
    ensures Lookup(Finish(table, taskId, outcome), other) == Lookup(table, other)
    ensures Finish(table, taskId, outcome).Keys == table.Keys
  {
  }

  /** The whole life of one download: started for `modelId`, then finished, it reports the outcome and the model. */
  lemma DownloadLifecycle(table: map<string, TaskStatus>, taskId: string, modelId: string, outcome: Option<string>)
    ensures Lookup(Finish(Start(table, taskId, modelId), taskId, outcome), taskId) ==
      if outcome.None? then TaskStatus(Completed, Some(modelId), None) else TaskStatus(Failed, Some(modelId), outcome)
  {
  }

  /** `ModelLoader`: the status table and the set of ids whose background task was created. */
  class Loader {
    var status: map<string, TaskStatus>
    var tasks: set<string>

    /** Every task has a record naming its model, and every record has a task. */
    ghost predicate Valid()
      reads this
    {
      && tasks == status.Keys
      && forall t :: t in status ==> status[t].model.Some? && status[t].status != NotFound
    }

    constructor()
      ensures Valid() && status == map[] && tasks == {}
    {
      status := map[];
      tasks := {};
    }

    /**
      `start`: record the new task as in progress for `modelId` and create
      its download task. `taskId` is the fresh `uuid4().hex`.
     */
    method StartDownload(modelId: string, taskId: string) returns (id: string)
      requires Valid() && taskId !in status
      modifies this
      ensures Valid()
      ensures id == taskId
      ensures status == Start(old(status), taskId, modelId)
      ensures tasks == old(tasks) + {taskId}
    {
      status := Start(status, taskId, modelId);
      tasks := tasks + {taskId};
      id := taskId;
    }

    /** `get_status`: the record of the download, or `{"status": "not_found"}`; the table is only read. */
    method GetStatus(taskId: string) returns (s: TaskStatus)
      requires Valid()
      ensures s == Lookup(status, taskId)
      ensures s.status == NotFound <==> taskId !in status
    {
      if taskId in status {
        s := status[taskId];
      } else {
        s := NotFoundStatus;
      }
    }

    /**
      The end of `_download` for `taskId`: `outcome` is None when the
      download returned and `str(e)` when it raised.
     */
    method FinishDownload(taskId: string, outcome: Option<string>)
      requires Valid() && taskId in status
      modifies this
      ensures Valid()
      ensures status == Finish(old(status), taskId, outcome)
      ensures tasks == old(tasks)
    {
      var record := status[taskId];
      if outcome.None? {
        status := status[taskId := record.(status := Completed)];
      } else {
        status := status[taskId := record.(status := Failed, error := outcome)];
      }
    }
  }
}
