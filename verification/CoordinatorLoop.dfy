/** The coordinator: one event at a time, Kahn's algorithm on the in_degree column. */
module CoordinatorLoop {
  import opened Domain
  import opened TaskTable
  import opened Repositories
  import opened Messaging

  /** The verdicts after an event: only a completion that readied nobody triggers the check. */
  function VerdictsAfter(rows: Rows, verdicts: Verdicts, ev: Event, ready: seq<TaskId>): Verdicts {
    if ev.TaskCompleted? && ready == [] && AllCompleted(rows, ev.executionId)
    then UpdatedStatus(verdicts, ev.executionId, WorkflowCompleted)
    else verdicts
  }

  class Coordinator {
    const taskRepo: TaskRepository
    const workflowRepo: WorkflowRepository
    const queue: RedisQueue
    const eventBus: EventBus

    constructor (taskRepo: TaskRepository, workflowRepo: WorkflowRepository, queue: RedisQueue, bus: EventBus)
      ensures this.taskRepo == taskRepo && this.workflowRepo == workflowRepo && this.queue == queue
      ensures this.eventBus == bus
    {
      this.taskRepo, this.workflowRepo, this.queue, this.eventBus := taskRepo, workflowRepo, queue, bus;
    }

    /** The effect of handling `ev` on the tables and the main queue. */
    twostate predicate Handled(ev: Event, ready: seq<TaskId>)
      reads taskRepo.db, workflowRepo.db, queue
    {
      && Enumerates(ready, ReadySet(old(taskRepo.db.rows), ev.executionId, ev.refId))
      && taskRepo.db.rows == Decrement(old(taskRepo.db.rows), ev.executionId, ev.refId, ev.TaskTerminated?)
      && queue.items == old(queue.items) + ready
      && workflowRepo.db.verdicts == VerdictsAfter(taskRepo.db.rows, old(workflowRepo.db.verdicts), ev, ready)
    }

    /** One turn of the select loop; `pick` stands for its arbitrary choice between the two channels. */
    method HandleNext(pick: bool) returns (ev: Option<Event>, ghost ready: seq<TaskId>)
      requires taskRepo.db == workflowRepo.db
      requires forall e | e in eventBus.completed :: e.TaskCompleted?
      requires forall e | e in eventBus.terminated :: e.TaskTerminated?
      modifies taskRepo.db, queue, eventBus
      ensures ev.None? <==> (if pick then old(eventBus.completed) else old(eventBus.terminated)) == []
      ensures ev.Some? ==>
                && ev.value == (if pick then old(eventBus.completed) else old(eventBus.terminated))[0]
                && eventBus.completed == (if pick then old(eventBus.completed)[1..] else old(eventBus.completed))
                && eventBus.terminated == (if pick then old(eventBus.terminated) else old(eventBus.terminated)[1..])
                && Handled(ev.value, ready)
      ensures ev.None? ==> taskRepo.db.rows == old(taskRepo.db.rows) && queue.items == old(queue.items)
                           && workflowRepo.db.verdicts == old(workflowRepo.db.verdicts)
                           && eventBus.completed == old(eventBus.completed)
                           && eventBus.terminated == old(eventBus.terminated)
    {
      ev := eventBus.Receive(pick);
      ready := [];
      if ev.Some? {
        if pick {
          assert ev.value in old(eventBus.completed);
          ready := HandleTaskCompleted(ev.value);
        } else {
          assert ev.value in old(eventBus.terminated);
          ready := HandleTaskTerminated(ev.value);
        }
      }
    }

    method HandleTaskCompleted(ev: Event) returns (ghost ready: seq<TaskId>)
      requires taskRepo.db == workflowRepo.db && ev.TaskCompleted?
      modifies taskRepo.db, queue
      ensures Handled(ev, ready)
      ensures NoDuplicates(ready)
      ensures forall t :: t in ready <==>
                && t in old(taskRepo.db.rows) && old(taskRepo.db.rows)[t].spec.executionId == ev.executionId
                && ev.refId in old(taskRepo.db.rows)[t].spec.dependencies && old(taskRepo.db.rows)[t].inDegree == 1
      ensures queue.items == old(queue.items) + ready
      ensures taskRepo.db.rows.Keys == old(taskRepo.db.rows).Keys
      ensures forall t | t in old(taskRepo.db.rows) :: var row := old(taskRepo.db.rows)[t];
                taskRepo.db.rows[t] == if row.spec.executionId == ev.executionId && ev.refId in row.spec.dependencies
                                       then row.(inDegree := row.inDegree - 1, skipHint := row.skipHint,
                                                 status := if row.inDegree == 1 then Queued else row.status)
                                       else row
      ensures workflowRepo.db.verdicts ==
                if && ready == [] && ev.executionId in old(workflowRepo.db.verdicts)
                   && old(workflowRepo.db.verdicts)[ev.executionId] != WorkflowFailed
                   && (forall t | t in taskRepo.db.rows && taskRepo.db.rows[t].spec.executionId == ev.executionId ::
                         taskRepo.db.rows[t].status == Completed)
                then old(workflowRepo.db.verdicts)[ev.executionId := WorkflowCompleted]
                else old(workflowRepo.db.verdicts)
    {
      var unblocked := taskRepo.DecrementAndGetReadyTasks(ev.executionId, ev.refId);
      PushAll(unblocked);
      if |unblocked| == 0 {
        CheckIfWorkflowFinished(ev.executionId);
      }
      ready := unblocked;
    }

    method HandleTaskTerminated(ev: Event) returns (ghost ready: seq<TaskId>)
      requires taskRepo.db == workflowRepo.db && ev.TaskTerminated?
      modifies taskRepo.db, queue
      ensures Handled(ev, ready)
      ensures NoDuplicates(ready)
      ensures forall t :: t in ready <==>
                && t in old(taskRepo.db.rows) && old(taskRepo.db.rows)[t].spec.executionId == ev.executionId
                && ev.refId in old(taskRepo.db.rows)[t].spec.dependencies && old(taskRepo.db.rows)[t].inDegree == 1
      ensures queue.items == old(queue.items) + ready
      ensures taskRepo.db.rows.Keys == old(taskRepo.db.rows).Keys
      ensures forall t | t in old(taskRepo.db.rows) :: var row := old(taskRepo.db.rows)[t];
                taskRepo.db.rows[t] == if row.spec.executionId == ev.executionId && ev.refId in row.spec.dependencies
                                       then row.(inDegree := row.inDegree - 1, skipHint := true,
                                                 status := if row.inDegree == 1 then Queued else row.status)
                                       else row
      ensures workflowRepo.db.verdicts == old(workflowRepo.db.verdicts)
    {
      var unblocked := taskRepo.DecrementAndSetSkipHint(ev.executionId, ev.refId);
      PushAll(unblocked);
      ready := unblocked;
    }

    method PushAll(ids: seq<TaskId>)
      modifies queue
      ensures queue.items == old(queue.items) + ids
    {
      var i := 0;
      while i < |ids|
        invariant 0 <= i <= |ids|
        invariant queue.items == old(queue.items) + ids[..i]
      {
        queue.Push(ids[i]);
        assert ids[..i+1] == ids[..i] + [ids[i]];
        i := i + 1;
      }
      assert ids[..i] == ids;
    }

    method CheckIfWorkflowFinished(execution: ExecutionId)
      requires taskRepo.db == workflowRepo.db
      modifies workflowRepo.db`verdicts
      ensures workflowRepo.db.verdicts ==
                if AllCompleted(taskRepo.db.rows, execution)
                then UpdatedStatus(old(workflowRepo.db.verdicts), execution, WorkflowCompleted)
                else old(workflowRepo.db.verdicts)
      ensures workflowRepo.db.verdicts ==
                if && execution in old(workflowRepo.db.verdicts)
                   && old(workflowRepo.db.verdicts)[execution] != WorkflowFailed
                   && (forall t | t in taskRepo.db.rows && taskRepo.db.rows[t].spec.executionId == execution ::
                         taskRepo.db.rows[t].status == Completed)
                then old(workflowRepo.db.verdicts)[execution := WorkflowCompleted]
                else old(workflowRepo.db.verdicts)
    {
      var all := taskRepo.AreAllTasksCompleted(execution);
      if !all {
        return;
      }
      workflowRepo.UpdateStatus(execution, WorkflowCompleted);
    }
  }
}
