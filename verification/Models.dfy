/** The records of liandanlu_native/models.py that several components share. */
module Models {
  import opened Basics

  datatype TaskState =
    | Created | Queued | TaskRunning | Waiting | Pausing | Paused
    | Cancelling | TaskBlocked | Completed | TaskFailed | TaskCancelled

  datatype TaskPhase = Observing | Thinking | Authorizing | Executing | PhaseVerifying | Replanning

  /** Every lane but the interactive one is treated alike. */
  datatype Lane = Interactive | OtherLane(name: string)

  /** `maxOperations` below zero means "no limit". */
  datatype Budget = Budget(maxOperations: int, started: int, deadline: Option<Time>)

  datatype BlockReason = MaxOperations | Deadline

  function BudgetBlock(b: Budget, at: Time): Option<BlockReason> {
    if b.maxOperations >= 0 && b.started >= b.maxOperations then Some(MaxOperations)
    else if b.deadline.Some? && at >= b.deadline.value then Some(Deadline)
    else None
  }

  datatype Task = Task(
    workspace: Id, state: TaskState, desired: TaskState, phase: TaskPhase,
    priority: int, lane: Lane, queuedAt: Option<Time>,
    waitReason: Option<string>, budget: Budget, revision: int)

  predicate Finished(t: Task) { t.state == Completed || t.state == TaskFailed || t.state == TaskCancelled }

  datatype TaskLease = TaskLease(taskId: Id, owner: Id, generation: nat, claimedAt: Time, until: Time)

  /** A resource request; the source rejects negative amounts when it is built. */
  datatype Request = Request(cpu: nat, memory: nat, gpu: nat, labels: seq<Id>)

  datatype Capacity = Capacity(cpu: nat, memory: nat, gpu: nat)

  predicate EmptyRequest(r: Request) {
    r.cpu == 0 && r.memory == 0 && r.gpu == 0 && r.labels == []
  }

  datatype ResourceLease = ResourceLease(
    taskId: Id, owner: Id, generation: nat, request: Request, claimedAt: Time, until: Time)
}
