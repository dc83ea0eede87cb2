/** The worker: one call of ProcessNextTask takes a task through one lifecycle. */
module WorkerPool {
  import opened Domain
  import opened WorkerSteps
  import opened Repositories
  import opened Messaging

  class Worker {
    const workerId: WorkerId
    const queue: RedisQueue
    const retryQueue: RedisQueue
    const repo: TaskRepository
    const workflowRepo: WorkflowRepository
    const bus: EventBus
    const handlers: Handlers

    constructor (id: WorkerId, queue: RedisQueue, retryQueue: RedisQueue, repo: TaskRepository,
                 workflowRepo: WorkflowRepository, bus: EventBus, handlers: Handlers)
      ensures this.workerId == id && this.queue == queue && this.retryQueue == retryQueue
      ensures this.repo == repo && this.workflowRepo == workflowRepo && this.bus == bus && this.handlers == handlers
    {
      this.workerId, this.queue, this.retryQueue := id, queue, retryQueue;
      this.repo, this.workflowRepo, this.bus, this.handlers := repo, workflowRepo, bus, handlers;
    }

    /** The shared data as the worker sees it. */
    ghost function View(): Store
      reads repo.db, workflowRepo.db, retryQueue, bus
    {
      Store(repo.db.rows, workflowRepo.db.verdicts, retryQueue.items, bus.completed, bus.terminated)
    }

    /** Where the shared data ends up when the worker runs on undisturbed from `pc`. */
    ghost function Finish(st: Store, pc: Pc): Store {
      RunToIdle(handlers, workerId, st, pc)
    }

    /** One statement on, the end of the call is the same. */
    lemma Advanced(st: Store, pc: Pc, st': Store, pc': Pc)
      requires !pc.Idle? && st' == StoreAfter(handlers, workerId, st, pc)
      requires pc' == MoveOf(handlers, workerId, st, pc).pc
      ensures Finish(st, pc) == Finish(st', pc')
      ensures pc'.Idle? ==> Finish(st, pc) == st'
    {
    }

    /** One task lifecycle; nothing happens while the queue is empty. */
    method ProcessNextTask()
      requires repo.db == workflowRepo.db
      modifies queue, retryQueue, repo.db, bus
      ensures old(queue.items) == [] ==> queue.items == [] && View() == old(View())
      ensures old(queue.items) != [] && queue != retryQueue ==>
                queue.items == old(queue.items)[1..] && View() == Finish(old(View()), Popped(old(queue.items)[0]))
      ensures old(queue.items) != [] && queue == retryQueue ==>
                View() == Finish(old(View()).(retryQueue := old(queue.items)[1..]), Popped(old(queue.items)[0]))
    {
      var id := queue.Pop();
      if id.None? {
        return;
      }
      ghost var start := View();
      var task := repo.FindTaskByID(id.value);
      Advanced(start, Popped(id.value), start, if task.Some? then Fetched(task.value) else Idle);
      if task.None? {
        return;
      }
      if task.value.skipHint {
        HandleSkippedTask(task.value);
        return;
      }
      var claimed := ClaimTask(task.value);
      if claimed.None? {
        return;
      }
      var ok := ExecuteTaskAction(claimed.value);
      if !ok {
        HandleTaskFailure(claimed.value);
        return;
      }
      HandleTaskSuccess(claimed.value);
    }

    method HandleSkippedTask(task: Task)
      requires repo.db == workflowRepo.db && task.skipHint
      modifies repo.db, bus
      ensures View() == Finish(old(View()), Fetched(task))
      ensures repo.db.rows == if task.spec.id in old(repo.db.rows)
                              then old(repo.db.rows)[task.spec.id :=
                                     old(repo.db.rows)[task.spec.id].(status := Skipped)]
                              else old(repo.db.rows)
      ensures repo.db.verdicts == old(repo.db.verdicts) && bus.completed == old(bus.completed)
      ensures bus.terminated == old(bus.terminated) + [TaskTerminated(task.spec.executionId, task.spec.id,
                                                                      task.spec.refId, TerminationSkipped)]
    {
      ghost var start := View();
      repo.Mark(task.spec.id, Skipped);
      ghost var marked := View();
      Advanced(start, Fetched(task), marked, SkipMarked(task));
      bus.PublishTaskTerminated(TerminatedEvent(task.spec, TerminationSkipped));
      Advanced(marked, SkipMarked(task), View(), Idle);
    }

    /** On success the snapshot's version is bumped to match the row. */
    method ClaimTask(task: Task) returns (claimed: Option<Task>)
      requires repo.db == workflowRepo.db && !task.skipHint
      modifies repo.db
      ensures claimed.Some? ==> claimed.value == task.(version := task.version + 1)
                                && Finish(View(), Owned(claimed.value)) == Finish(old(View()), Fetched(task))
      ensures claimed.None? ==> View() == Finish(old(View()), Fetched(task))
      ensures claimed.Some? <==> task.spec.id in old(repo.db.rows)
                                 && old(repo.db.rows)[task.spec.id].version == task.version
      ensures claimed.None? ==> repo.db.rows == old(repo.db.rows)
      ensures claimed.Some? ==>
                repo.db.rows == old(repo.db.rows)[task.spec.id := old(repo.db.rows)[task.spec.id].(
                                  status := Running, workerId := Some(workerId), version := task.version + 1)]
      ensures repo.db.verdicts == old(repo.db.verdicts)
    {
      ghost var start := View();
      var ok := repo.ClaimTask(task.spec.id, workerId, task.version);
      claimed := if ok then Some(task.(version := task.version + 1)) else None;
      Advanced(start, Fetched(task), View(), if claimed.Some? then Owned(claimed.value) else Idle);
    }

    /** An unregistered action is marked FAILED and announced here, and then reported as an error all the same. */
    method ExecuteTaskAction(task: Task) returns (ok: bool)
      requires repo.db == workflowRepo.db
      modifies repo.db, bus
      ensures Finish(View(), if ok then Succeeded(task) else Errored(task)) == Finish(old(View()), Owned(task))
      ensures ok <==> task.spec.action in handlers.registry && handlers.succeeds(task.spec.id, task.retryCount)
      ensures task.spec.action in handlers.registry ==> View() == old(View())
      ensures task.spec.action !in handlers.registry ==>
                && repo.db.rows == (if task.spec.id in old(repo.db.rows)
                                    then old(repo.db.rows)[task.spec.id :=
                                           old(repo.db.rows)[task.spec.id].(status := Failed)]
                                    else old(repo.db.rows))
                && repo.db.verdicts == (if task.spec.executionId in old(repo.db.verdicts)
                                        then old(repo.db.verdicts)[task.spec.executionId := WorkflowFailed]
                                        else old(repo.db.verdicts))
                && bus.completed == old(bus.completed)
                && bus.terminated == old(bus.terminated) + [TaskTerminated(task.spec.executionId, task.spec.id,
                                                                           task.spec.refId, TerminationFailed)]
    {
      ghost var start := View();
      if task.spec.action !in handlers.registry {
        repo.Mark(task.spec.id, Failed);
        ghost var marked := View();
        Advanced(start, Owned(task), marked, UnknownMarked(task));
        bus.PublishTaskTerminated(TerminatedEvent(task.spec, TerminationFailed));
        ghost var announced := View();
        Advanced(marked, UnknownMarked(task), announced, UnknownAnnounced(task));
        workflowRepo.UpdateStatus(task.spec.executionId, WorkflowFailed);
        Advanced(announced, UnknownAnnounced(task), View(), Errored(task));
        return false;
      }
      ok := handlers.succeeds(task.spec.id, task.retryCount);
      Advanced(start, Owned(task), start, if ok then Succeeded(task) else Errored(task));
    }

    method HandleTaskFailure(task: Task)
      requires repo.db == workflowRepo.db
      modifies repo.db, retryQueue, bus
      ensures View() == Finish(old(View()), Errored(task))
      ensures task.retryCount < task.spec.maxRetries ==>
                if task.spec.id in old(repo.db.rows) && old(repo.db.rows)[task.spec.id].version == task.version then
                  && repo.db.rows == old(repo.db.rows)[task.spec.id := old(repo.db.rows)[task.spec.id].(
                       retryCount := old(repo.db.rows)[task.spec.id].retryCount + 1, status := Pending,
                       version := task.version + 1)]
                  && retryQueue.items == old(retryQueue.items) + [task.spec.id]
                  && repo.db.verdicts == old(repo.db.verdicts) && bus.completed == old(bus.completed)
                  && bus.terminated == old(bus.terminated)
                else View() == old(View())
      ensures task.retryCount >= task.spec.maxRetries ==>
                && repo.db.rows == (if task.spec.id in old(repo.db.rows)
                                    then old(repo.db.rows)[task.spec.id :=
                                           old(repo.db.rows)[task.spec.id].(status := Failed)]
                                    else old(repo.db.rows))
                && repo.db.verdicts == (if task.spec.executionId in old(repo.db.verdicts)
                                        then old(repo.db.verdicts)[task.spec.executionId := WorkflowFailed]
                                        else old(repo.db.verdicts))
                && retryQueue.items == old(retryQueue.items) && bus.completed == old(bus.completed)
                && bus.terminated == old(bus.terminated) + [TaskTerminated(task.spec.executionId, task.spec.id,
                                                                           task.spec.refId, TerminationFailed)]
    {
      if task.CanRetry(task.spec.maxRetries) {
        RetryTask(task);
      } else {
        MarkTaskFailedPermanently(task);
      }
    }

    method RetryTask(task: Task)
      requires repo.db == workflowRepo.db && task.CanRetry(task.spec.maxRetries)
      modifies repo.db, retryQueue
      ensures View() == Finish(old(View()), Errored(task))
      ensures if task.spec.id in old(repo.db.rows) && old(repo.db.rows)[task.spec.id].version == task.version then
                && repo.db.rows == old(repo.db.rows)[task.spec.id := old(repo.db.rows)[task.spec.id].(
                     retryCount := old(repo.db.rows)[task.spec.id].retryCount + 1, status := Pending,
                     version := task.version + 1)]
                && retryQueue.items == old(retryQueue.items) + [task.spec.id]
              else View() == old(View())
      ensures repo.db.verdicts == old(repo.db.verdicts)
    {
      ghost var start := View();
      var ok := repo.IncrementRetryCount(task.spec.id, task.version);
      ghost var counted := View();
      Advanced(start, Errored(task), counted, if ok then RetryCounted(task) else Idle);
      if !ok {
        return;
      }
      retryQueue.Push(task.spec.id);
      Advanced(counted, RetryCounted(task), View(), Idle);
    }

    method MarkTaskFailedPermanently(task: Task)
      requires repo.db == workflowRepo.db && !task.CanRetry(task.spec.maxRetries)
      modifies repo.db, bus
      ensures View() == Finish(old(View()), Errored(task))
      ensures repo.db.rows == if task.spec.id in old(repo.db.rows)
                              then old(repo.db.rows)[task.spec.id :=
                                     old(repo.db.rows)[task.spec.id].(status := Failed)]
                              else old(repo.db.rows)
      ensures repo.db.verdicts == if task.spec.executionId in old(repo.db.verdicts)
                                  then old(repo.db.verdicts)[task.spec.executionId := WorkflowFailed]
                                  else old(repo.db.verdicts)
      ensures bus.completed == old(bus.completed)
      ensures bus.terminated == old(bus.terminated) + [TaskTerminated(task.spec.executionId, task.spec.id,
                                                                      task.spec.refId, TerminationFailed)]
    {
      ghost var start := View();
      repo.Mark(task.spec.id, Failed);
      ghost var marked := View();
      Advanced(start, Errored(task), marked, FailedMarked(task));
      workflowRepo.UpdateStatus(task.spec.executionId, WorkflowFailed);
      ghost var judged := View();
      Advanced(marked, FailedMarked(task), judged, VerdictFailed(task));
      bus.PublishTaskTerminated(TerminatedEvent(task.spec, TerminationFailed));
      Advanced(judged, VerdictFailed(task), View(), Idle);
    }

    method HandleTaskSuccess(task: Task)
      requires repo.db == workflowRepo.db
      modifies repo.db, bus
      ensures View() == Finish(old(View()), Succeeded(task))
      ensures repo.db.rows == if task.spec.id in old(repo.db.rows)
                              then old(repo.db.rows)[task.spec.id :=
                                     old(repo.db.rows)[task.spec.id].(status := Completed)]
                              else old(repo.db.rows)
      ensures repo.db.verdicts == old(repo.db.verdicts) && bus.terminated == old(bus.terminated)
      ensures bus.completed == old(bus.completed) + [TaskCompleted(task.spec.executionId, task.spec.id,
                                                                   task.spec.refId)]
    {
      ghost var start := View();
      repo.Mark(task.spec.id, Completed);
      ghost var marked := View();
      Advanced(start, Succeeded(task), marked, CompletedMarked(task));
      bus.PublishTaskCompleted(CompletedEvent(task.spec));
      Advanced(marked, CompletedMarked(task), View(), Idle);
    }
  }
}
