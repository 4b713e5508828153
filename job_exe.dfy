/** A running job execution: the scheduler-side state machine that hands out
    the tasks of one job execution (pre, job, post) one at a time and reacts
    to the tasks' status updates.

    Every operation of the original runs under one lock, so each method here
    is one atomic step. Effects on the outside world (callbacks into the
    task objects, the queue's job failure and completion handlers, pausing
    the node) are recorded, in order, in the `events` log. */
module JobExe {
  import opened Wrappers

  datatype ErrorCategory = System | Algorithm | Data

  /** A row of the error table. */
  datatype Error = Error(name: string, category: ErrorCategory)

  /** What a task needs from a node; the figures are opaque to this model. */
  datatype NodeResources = NodeResources(cpus: int, mem: int, disk: int)

  /** A task of the execution, as created by the task factory. */
  datatype Task = Task(id: string, resources: NodeResources)

  /** The status update a task reports when it finishes. */
  datatype TaskResults = TaskResults(taskId: string, when: Timestamp)

  /** The outside effects of the state machine, in the order they happen. */
  datatype Event =
    | TaskStarted(taskId: string, when: Timestamp, stdoutUrl: string, stderrUrl: string)
    | TaskCompleted(taskId: string, results: TaskResults)
    | TaskFailed(taskId: string, results: TaskResults)
    | JobCompleted(exeId: int, when: Timestamp)
    | JobFailed(exeId: int, when: Timestamp, error: Error)
    | NodePaused(nodeId: int)

  /** The database figures the node-pause rule reads when a task fails. */
  datatype NodeFailureStats = NodeFailureStats(
    numExes: int,           // executions of the job so far
    maxTries: int,          // the job's retry budget
    nodePresent: bool,      // the execution still has a node
    nodePaused: bool,       // that node is already paused
    nodeErrorPeriod: int,   // minutes of history the rule looks at (0 disables it)
    recentNodeErrors: int,  // jobs failed with a system error on the node in that period
    maxNodeErrors: int)     // threshold that pauses the node

  /** The node is paused after a failure only when the error is a system
      error, the job has used up its tries, the node exists and is not
      paused yet, the rule is enabled and the recent system failures on the
      node reach the threshold. */
  predicate ShouldPauseNode(error: Error, s: NodeFailureStats)
  {
    && error.category == System
    && s.numExes >= s.maxTries
    && s.nodePresent
    && !s.nodePaused
    && s.nodeErrorPeriod > 0
    && s.recentNodeErrors >= s.maxNodeErrors
  }

  /** The tasks a new execution queues: pre, job and post, or only the job
      task for a system execution. */
  function InitialTasks(isSystem: bool, preTask: Task, jobTask: Task, postTask: Task): (tasks: seq<Task>)
  {
    if isSystem then [jobTask] else [preTask, jobTask, postTask]
  }

  class RunningJobExecution {
    const id: int
    const jobTypeId: int
    const nodeId: int

    var currentTask: Option<Task>
    var remainingTasks: seq<Task>
    var events: seq<Event>

    /** The tasks queued at creation, in order. */
    ghost const plan: seq<Task>

    /** The tasks still queued are the tail of the plan, and the current
        task, if any, is the plan's task just before them: tasks are handed
        out in plan order and never twice. */
    ghost predicate Valid()
      reads this
    {
      && |remainingTasks| <= |plan|
      && remainingTasks == plan[|plan| - |remainingTasks|..]
      && (currentTask.Some? ==>
            |remainingTasks| < |plan| && currentTask.value == plan[|plan| - |remainingTasks| - 1])
    }

    /** All tasks are done. */
    predicate IsFinished()
      reads this
    {
      currentTask.None? && remainingTasks == []
    }

    /** No task is running and another one is waiting. */
    predicate IsNextTaskReady()
      reads this
    {
      currentTask.None? && remainingTasks != []
    }

    constructor (exeId: int, jobTypeId: int, nodeId: int, isSystem: bool,
                 preTask: Task, jobTask: Task, postTask: Task)
      ensures Valid()
      ensures id == exeId && this.jobTypeId == jobTypeId && this.nodeId == nodeId
      ensures currentTask == None
      ensures remainingTasks == InitialTasks(isSystem, preTask, jobTask, postTask) && plan == remainingTasks
      ensures |remainingTasks| == (if isSystem then 1 else 3)
      ensures !IsFinished() && IsNextTaskReady()
      ensures events == []
    {
      id := exeId;
      this.jobTypeId := jobTypeId;
      this.nodeId := nodeId;
      currentTask := None;
      var tasks: seq<Task> := [];
      if !isSystem {
        tasks := tasks + [preTask];
      }
      tasks := tasks + [jobTask];
      if !isSystem {
        tasks := tasks + [postTask];
      }
      remainingTasks := tasks;
      plan := tasks;
      events := [];
    }

    /** The resources of the next queued task, if any (whether or not a task
        is running). */
    function NextTaskResources(): (r: Option<NodeResources>)
      reads this
      ensures r.None? <==> remainingTasks == []
      ensures r.Some? ==> r.value == remainingTasks[0].resources
    {
      if remainingTasks == [] then None else Some(remainingTasks[0].resources)
    }

    /** Cancels the execution and hands back the task that was running. */
    method ExecutionCanceled() returns (task: Option<Task>)
      requires Valid()
      modifies this
      ensures Valid()
      ensures task == old(currentTask)
      ensures currentTask == None && remainingTasks == [] && IsFinished()
      ensures events == old(events)
    {
      task := currentTask;
      currentTask := None;
      remainingTasks := [];
    }

    /** Fails the execution because its node was lost, and hands back the
        task that was running. `nodeLostError` is the error table's
        node-lost row. */
    method ExecutionLost(when: Timestamp, nodeLostError: Error) returns (task: Option<Task>)
      requires Valid()
      modifies this
      ensures Valid()
      ensures task == old(currentTask)
      ensures currentTask == None && remainingTasks == [] && IsFinished()
      ensures events == old(events) + [JobFailed(id, when, nodeLostError)]
    {
      events := events + [JobFailed(id, when, nodeLostError)];
      task := currentTask;
      currentTask := None;
      remainingTasks := [];
    }

    /** Fails the execution because it timed out, and hands back the task
        that was running. `timeoutError` is the error table's timeout row. */
    method ExecutionTimedOut(when: Timestamp, timeoutError: Error) returns (task: Option<Task>)
      requires Valid()
      modifies this
      ensures Valid()
      ensures task == old(currentTask)
      ensures currentTask == None && remainingTasks == [] && IsFinished()
      ensures events == old(events) + [JobFailed(id, when, timeoutError)]
    {
      events := events + [JobFailed(id, when, timeoutError)];
      task := currentTask;
      currentTask := None;
      remainingTasks := [];
    }

    /** Starts the next queued task, if no task is running and one is
        queued. */
    method StartNextTask() returns (task: Option<Task>)
      requires Valid()
      modifies this
      ensures Valid()
      ensures old(currentTask).Some? || old(remainingTasks) == [] ==>
                task == None && currentTask == old(currentTask) && remainingTasks == old(remainingTasks)
      ensures old(IsNextTaskReady()) ==>
                && task == Some(old(remainingTasks)[0])
                && currentTask == task
                && remainingTasks == old(remainingTasks)[1..]
      ensures events == old(events)
    {
      if currentTask.Some? || remainingTasks == [] {
        return None;
      }
      currentTask := Some(remainingTasks[0]);
      remainingTasks := remainingTasks[1..];
      task := currentTask;
    }

    /** Whether a status update for `taskId` is about the running task. */
    predicate IsCurrent(taskId: string)
      reads this
    {
      currentTask.Some? && currentTask.value.id == taskId
    }

    /** Completes the running task; the job is reported complete when no task
        is left to run after it. Updates about any other task are ignored. */
    method TaskComplete(results: TaskResults)
      requires Valid()
      modifies this
      ensures Valid()
      ensures !old(IsCurrent(results.taskId)) ==>
                currentTask == old(currentTask) && remainingTasks == old(remainingTasks) && events == old(events)
      ensures old(IsCurrent(results.taskId)) ==>
                && currentTask == None
                && remainingTasks == old(remainingTasks)
                && events == old(events) + [TaskCompleted(results.taskId, results)]
                             + (if old(remainingTasks) == [] then [JobCompleted(id, results.when)] else [])
    {
      if currentTask.None? || currentTask.value.id != results.taskId {
        return;
      }
      events := events + [TaskCompleted(results.taskId, results)];
      if remainingTasks == [] {
        events := events + [JobCompleted(id, results.when)];
      }
      currentTask := None;
    }

    /** Fails the running task and with it the job, then drops every
        remaining task. `taskError` is the error the task's own failure
        handling settles on (None when it has none), `unknownError` the
        error table's unknown-error row, and `stats` the figures the
        node-pause rule reads. Updates about any other task are ignored. */
    method TaskFail(results: TaskResults, taskError: Option<Error>, unknownError: Error,
                    stats: NodeFailureStats)
      requires Valid()
      modifies this
      ensures Valid()
      ensures !old(IsCurrent(results.taskId)) ==>
                currentTask == old(currentTask) && remainingTasks == old(remainingTasks) && events == old(events)
      ensures old(IsCurrent(results.taskId)) ==>
                var error := if taskError.Some? then taskError.value else unknownError;
                && currentTask == None
                && remainingTasks == []
                && IsFinished()
                && events == old(events) + [TaskFailed(results.taskId, results), JobFailed(id, results.when, error)]
                             + (if ShouldPauseNode(error, stats) then [NodePaused(nodeId)] else [])
    {
      if currentTask.None? || currentTask.value.id != results.taskId {
        return;
      }
      events := events + [TaskFailed(results.taskId, results)];
      var error := unknownError;
      if taskError.Some? {
        error := taskError.value;
      }
      events := events + [JobFailed(id, results.when, error)];
      if ShouldPauseNode(error, stats) {
        events := events + [NodePaused(nodeId)];
      }
      currentTask := None;
      remainingTasks := [];
    }

    /** Tells the running task that it has started; updates about any other
        task are ignored. */
    method TaskRunning(taskId: string, when: Timestamp, stdoutUrl: string, stderrUrl: string)
      requires Valid()
      modifies this
      ensures Valid()
      ensures currentTask == old(currentTask) && remainingTasks == old(remainingTasks)
      ensures events == old(events) + (if old(IsCurrent(taskId)) then [TaskStarted(taskId, when, stdoutUrl, stderrUrl)] else [])
    {
      if currentTask.None? || currentTask.value.id != taskId {
        return;
      }
      events := events + [TaskStarted(taskId, when, stdoutUrl, stderrUrl)];
    }
  }

  /** A normal execution whose three tasks all complete: the tasks are
      handed out as pre, job, post, each completion is passed to its task,
      the job is reported complete exactly once, after the post task, and
      the execution ends finished. */
  method CompleteNormalExecution(exeId: int, nodeId: int, preTask: Task, jobTask: Task, postTask: Task,
                                 when: Timestamp)
    returns (started: seq<Task>, log: seq<Event>, finished: bool)
    ensures started == [preTask, jobTask, postTask]
    ensures log == [TaskCompleted(preTask.id, TaskResults(preTask.id, when)),
                    TaskCompleted(jobTask.id, TaskResults(jobTask.id, when)),
                    TaskCompleted(postTask.id, TaskResults(postTask.id, when)),
                    JobCompleted(exeId, when)]
    ensures finished
  {
    var exe := new RunningJobExecution(exeId, 0, nodeId, false, preTask, jobTask, postTask);
    started := [];
    var i := 0;
    while i < 3
      invariant 0 <= i <= 3
      invariant exe.Valid() && exe.id == exeId
      invariant exe.plan == [preTask, jobTask, postTask]
      invariant exe.currentTask == None
      invariant exe.remainingTasks == exe.plan[i..]
      invariant started == exe.plan[..i]
      invariant exe.events == seq(i, k requires 0 <= k < i =>
                                  TaskCompleted(exe.plan[k].id, TaskResults(exe.plan[k].id, when)))
                              + (if i == 3 then [JobCompleted(exeId, when)] else [])
    {
      var task := exe.StartNextTask();
      started := started + [task.value];
      exe.TaskComplete(TaskResults(task.value.id, when));
      i := i + 1;
    }
    log := exe.events;
    finished := exe.IsFinished();
  }

  /** A system execution runs only its job task and then is finished. */
  method CompleteSystemExecution(exeId: int, nodeId: int, preTask: Task, jobTask: Task, postTask: Task,
                                 when: Timestamp)
    returns (started: Option<Task>, log: seq<Event>, finished: bool)
    ensures started == Some(jobTask)
    ensures log == [TaskCompleted(jobTask.id, TaskResults(jobTask.id, when)), JobCompleted(exeId, when)]
    ensures finished
  {
    var exe := new RunningJobExecution(exeId, 0, nodeId, true, preTask, jobTask, postTask);
    started := exe.StartNextTask();
    exe.TaskComplete(TaskResults(jobTask.id, when));
    log := exe.events;
    finished := exe.IsFinished();
  }

  // ---------------------------------------------------------------------
  // The task queue as the constructor writes it.
  //
  // The constructor of the original appends `task.get_id()` (a string) to
  // the queue, while the rest of the class treats queue entries as task
  // objects (`.id`, `.get_resources()`, `.complete(...)`). The class above
  // queues the task records themselves, which is what the rest of the class
  // evidently expects.
  // ---------------------------------------------------------------------

  /** A queue entry as the interpreter sees it. */
  datatype QueueEntry = TaskIdString(s: string) | TaskObject(task: Task)

  datatype AttributeError = AttributeError(attribute: string)

  /** The queue the constructor builds as written: task ids, not tasks. */
  function QueueAsWritten(isSystem: bool, preTask: Task, jobTask: Task, postTask: Task): (q: seq<QueueEntry>)
    ensures |q| == |InitialTasks(isSystem, preTask, jobTask, postTask)|
    ensures forall i :: 0 <= i < |q| ==> q[i] == TaskIdString(InitialTasks(isSystem, preTask, jobTask, postTask)[i].id)
  {
    if isSystem then [TaskIdString(jobTask.id)]
    else [TaskIdString(preTask.id), TaskIdString(jobTask.id), TaskIdString(postTask.id)]
  }

  /** `entry.id`: a string has no such attribute. */
  function EntryId(entry: QueueEntry): Result<string, AttributeError>
  {
    match entry
    case TaskIdString(_) => Err(AttributeError("id"))
    case TaskObject(t) => Ok(t.id)
  }

  /** `entry.get_resources()`: a string has no such attribute. */
  function EntryResources(entry: QueueEntry): Result<NodeResources, AttributeError>
  {
    match entry
    case TaskIdString(_) => Err(AttributeError("get_resources"))
    case TaskObject(t) => Ok(t.resources)
  }

  /** Python truthiness of a queue entry: an empty string is falsy, a task
      object is truthy. */
  predicate EntryTruthy(entry: QueueEntry)
  {
    match entry
    case TaskIdString(s) => s != ""
    case TaskObject(_) => true
  }

  /** The guard shared by task_complete, task_fail and task_running, on a
      queue entry that has been started: Ok(true) means "ignore the update".
      A missing or falsy current entry short-circuits the guard before `.id`
      is read. */
  function IgnoreUpdate(current: Option<QueueEntry>, taskId: string): (r: Result<bool, AttributeError>)
    ensures r.Err? <==> current.Some? && current.value.TaskIdString? && current.value.s != ""
    ensures current.Some? && current.value.TaskObject? ==> r == Ok(current.value.task.id != taskId)
  {
    match current
    case None => Ok(true)
    case Some(entry) =>
      if !EntryTruthy(entry) then Ok(true)
      else
        match EntryId(entry)
        case Err(e) => Err(e)
        case Ok(currentId) => Ok(currentId != taskId)
  }

  /** As written, asking for the next task's resources raises before
      anything is started. Once the first queued entry is started, every
      status update raises when its task id is non-empty; when that id is
      the empty string the guard ignores every update, even one about that
      very task, so it is never handled either. */
  lemma AsWrittenQueueBreaksUpdates(isSystem: bool, preTask: Task, jobTask: Task, postTask: Task, taskId: string)
    ensures var q := QueueAsWritten(isSystem, preTask, jobTask, postTask);
            && q != []
            && EntryResources(q[0]) == Err(AttributeError("get_resources"))
            && (q[0].s != "" ==> IgnoreUpdate(Some(q[0]), taskId) == Err(AttributeError("id")))
            && (q[0].s == "" ==> IgnoreUpdate(Some(q[0]), taskId) == Ok(true))
  {
  }

  /** With task records queued, the started task's own id is recognised as
      current by the same guard. */
  lemma TaskRecordQueueHandlesUpdates(isSystem: bool, preTask: Task, jobTask: Task, postTask: Task)
    ensures var q := InitialTasks(isSystem, preTask, jobTask, postTask);
            && q != []
            && EntryResources(TaskObject(q[0])) == Ok(q[0].resources)
            && IgnoreUpdate(Some(TaskObject(q[0])), q[0].id) == Ok(false)
  {
  }
}
