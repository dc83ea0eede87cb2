/** From a request to stored tasks and queued roots. */
module Submission {
  import opened Domain
  import opened TaskTable
  import opened Repositories
  import opened Messaging

  datatype TaskRequest = TaskRequest(refId: RefId, action: Action, dependencies: seq<RefId>)

  function SpecOf(execution: ExecutionId, id: TaskId, request: TaskRequest): TaskSpec {
    TaskSpec(id, execution, request.refId, request.action, request.dependencies, 0)
  }

  // ---- the mapper ----

  /** The factory: PENDING, version 1, everything else zero. */
  function NewTask(execution: ExecutionId, id: TaskId, ref: RefId, action: Action): Task {
    Task(TaskSpec(id, execution, ref, action, [], 0), Pending, 0, 0, false, None, 1)
  }

  /** What a requested task is mapped to, column by column. */
  function MappedTask(execution: ExecutionId, id: TaskId, request: TaskRequest): Task {
    Task(TaskSpec(id, execution, request.refId, request.action, request.dependencies, 0),
         if request.dependencies == [] then Queued else Pending,
         0, |request.dependencies|, false, None, 1)
  }

  /** And stored as: the same, with the default retry limit. */
  function StoredTask(execution: ExecutionId, id: TaskId, request: TaskRequest): Task {
    Task(TaskSpec(id, execution, request.refId, request.action, request.dependencies, 3),
         if request.dependencies == [] then Queued else Pending,
         0, |request.dependencies|, false, None, 1)
  }

  method ToTask(execution: ExecutionId, id: TaskId, request: TaskRequest) returns (task: Task)
    ensures task == InitialRow(SpecOf(execution, id, request))
    ensures task == Task(TaskSpec(id, execution, request.refId, request.action, request.dependencies, 0),
                         if request.dependencies == [] then Queued else Pending,
                         0, |request.dependencies|, false, None, 1)
  {
    task := NewTask(execution, id, request.refId, request.action);
    task := task.(spec := task.spec.(dependencies := request.dependencies));
    task := task.(inDegree := |request.dependencies|);
    if task.inDegree == 0 {
      task := task.(status := Queued);
    } else {
      task := task.(status := Pending);
    }
  }

  /** `ids` are the generated identifiers, one per requested task. */
  method ToWorkflowExecution(execution: ExecutionId, ids: seq<TaskId>, requests: seq<TaskRequest>)
      returns (tasks: seq<Task>)
    requires |ids| == |requests|
    ensures |tasks| == |requests|
    ensures forall i | 0 <= i < |tasks| ::
              tasks[i] == Task(TaskSpec(ids[i], execution, requests[i].refId, requests[i].action,
                                        requests[i].dependencies, 0),
                               if requests[i].dependencies == [] then Queued else Pending,
                               0, |requests[i].dependencies|, false, None, 1)
  {
    tasks := [];
    var i := 0;
    while i < |requests|
      invariant 0 <= i <= |requests| && |tasks| == i
      invariant forall j | 0 <= j < i :: tasks[j] == MappedTask(execution, ids[j], requests[j])
    {
      var task := ToTask(execution, ids[i], requests[i]);
      tasks := tasks + [task];
      i := i + 1;
    }
  }

  /** What is stored for a mapped request is the protocol's initial row, with the default retry limit. */
  lemma StoredIsInitial(execution: ExecutionId, id: TaskId, request: TaskRequest)
    ensures StoredRow(InitialRow(SpecOf(execution, id, request)))
         == InitialRow(SpecOf(execution, id, request).(maxRetries := 3))
    ensures StoredRow(MappedTask(execution, id, request))
         == InitialRow(TaskSpec(id, execution, request.refId, request.action, request.dependencies, 3))
  {
  }

  // ---- the service ----

  function RootsOf(tasks: seq<Task>): seq<Task> {
    if tasks == [] then []
    else RootsOf(tasks[..|tasks|-1]) + (if tasks[|tasks|-1].inDegree == 0 then [tasks[|tasks|-1]] else [])
  }

  function IdsOf(tasks: seq<Task>): (ids: seq<TaskId>)
    ensures |ids| == |tasks| && forall i | 0 <= i < |tasks| :: ids[i] == tasks[i].spec.id
  {
    seq(|tasks|, i requires 0 <= i < |tasks| => tasks[i].spec.id)
  }

  /** How many of the tasks wait for nothing. */
  function RootCount(tasks: seq<Task>): nat {
    if tasks == [] then 0
    else RootCount(tasks[..|tasks|-1]) + (if tasks[|tasks|-1].inDegree == 0 then 1 else 0)
  }

  /** The roots in request order: each stands behind as many as come before it. */
  lemma {:induction false} RootsInOrder(tasks: seq<Task>)
    ensures |RootsOf(tasks)| == RootCount(tasks)
    ensures forall i | 0 <= i < |tasks| && tasks[i].inDegree == 0 ::
              RootCount(tasks[..i]) < RootCount(tasks) && RootsOf(tasks)[RootCount(tasks[..i])] == tasks[i]
  {
    if tasks != [] {
      var rest := tasks[..|tasks|-1];
      RootsInOrder(rest);
      forall i | 0 <= i < |tasks| && tasks[i].inDegree == 0
        ensures RootCount(tasks[..i]) < RootCount(tasks) && RootsOf(tasks)[RootCount(tasks[..i])] == tasks[i]
      {
        if i < |rest| {
          assert rest[..i] == tasks[..i] && rest[i] == tasks[i];
        }
      }
    }
  }

  class WorkflowService {
    const repo: TaskRepository
    const queue: RedisQueue

    constructor (repo: TaskRepository, queue: RedisQueue)
      ensures this.repo == repo && this.queue == queue
    {
      this.repo, this.queue := repo, queue;
    }

    /** Store everything, then push the roots; a request whose ids are taken changes nothing. */
    method SubmitWorkflow(execution: ExecutionId, tasks: seq<Task>) returns (ok: bool)
      modifies repo.db, queue
      ensures ok <==> && execution !in old(repo.db.verdicts)
                      && (forall i | 0 <= i < |tasks| :: tasks[i].spec.id !in old(repo.db.rows))
                      && (forall i, j | 0 <= i < j < |tasks| :: tasks[i].spec.id != tasks[j].spec.id)
      ensures ok ==> repo.db.rows == Inserted(old(repo.db.rows), tasks)
      ensures ok ==> repo.db.verdicts == old(repo.db.verdicts)[execution := WorkflowRunning]
      ensures ok ==> queue.items == old(queue.items) + IdsOf(RootsOf(tasks))
      ensures ok ==> old(queue.items) <= queue.items && |queue.items| == |old(queue.items)| + RootCount(tasks)
      ensures ok ==> forall i | 0 <= i < |tasks| && tasks[i].inDegree == 0 ::
                && |old(queue.items)| + RootCount(tasks[..i]) < |queue.items|
                && queue.items[|old(queue.items)| + RootCount(tasks[..i])] == tasks[i].spec.id
      ensures ok ==> forall t :: t in repo.db.rows
                            <==> t in old(repo.db.rows) || exists i :: 0 <= i < |tasks| && tasks[i].spec.id == t
      ensures ok ==> forall t | t in old(repo.db.rows) :: repo.db.rows[t] == old(repo.db.rows)[t]
      ensures ok ==> forall i | 0 <= i < |tasks| ::
                && tasks[i].spec.id in repo.db.rows
                && var row := repo.db.rows[tasks[i].spec.id];
                   && row.spec.maxRetries == (if tasks[i].spec.maxRetries == 0 then 3 else tasks[i].spec.maxRetries)
                   && row.(spec := row.spec.(maxRetries := tasks[i].spec.maxRetries)) == tasks[i]
      ensures !ok ==> repo.db.rows == old(repo.db.rows) && repo.db.verdicts == old(repo.db.verdicts)
                      && queue.items == old(queue.items)
    {
      ok := repo.CreateExecution(execution, tasks);
      if !ok {
        return;
      }
      var roots := GetRootTasks(tasks);
      EnqueueRootTasks(roots);
    }

    method GetRootTasks(tasks: seq<Task>) returns (roots: seq<Task>)
      ensures roots == RootsOf(tasks)
      ensures |roots| == RootCount(tasks)
      ensures forall i | 0 <= i < |tasks| && tasks[i].inDegree == 0 ::
                RootCount(tasks[..i]) < |roots| && roots[RootCount(tasks[..i])] == tasks[i]
    {
      roots := [];
      var i := 0;
      while i < |tasks|
        invariant 0 <= i <= |tasks|
        invariant roots == RootsOf(tasks[..i])
      {
        assert tasks[..i+1][..i] == tasks[..i];
        if tasks[i].inDegree == 0 {
          roots := roots + [tasks[i]];
        }
        i := i + 1;
      }
      assert tasks[..i] == tasks;
      RootsInOrder(tasks);
    }

    method EnqueueRootTasks(roots: seq<Task>)
      modifies queue
      ensures queue.items == old(queue.items) + IdsOf(roots)
      ensures |queue.items| == |old(queue.items)| + |roots| && old(queue.items) <= queue.items
      ensures forall i | 0 <= i < |roots| :: queue.items[|old(queue.items)| + i] == roots[i].spec.id
    {
      var i := 0;
      while i < |roots|
        invariant 0 <= i <= |roots|
        invariant queue.items == old(queue.items) + IdsOf(roots)[..i]
      {
        queue.Push(roots[i].spec.id);
        assert IdsOf(roots)[..i+1] == IdsOf(roots)[..i] + [roots[i].spec.id];
        i := i + 1;
      }
      assert IdsOf(roots)[..i] == IdsOf(roots);
    }
  }

  // ---- the handler ----

  /** How many of the requested tasks depend on nothing. */
  function RootRequests(requests: seq<TaskRequest>): nat {
    if requests == [] then 0
    else RootRequests(requests[..|requests|-1]) + (if requests[|requests|-1].dependencies == [] then 1 else 0)
  }

  /** The requested roots were appended in request order: each stands behind as many as come before it. */
  predicate RootsAppended(before: seq<TaskId>, after: seq<TaskId>, ids: seq<TaskId>, requests: seq<TaskRequest>) {
    && |ids| == |requests| && before <= after && |after| == |before| + RootRequests(requests)
    && forall i | 0 <= i < |ids| && requests[i].dependencies == [] ::
         && |before| + RootRequests(requests[..i]) < |after|
         && after[|before| + RootRequests(requests[..i])] == ids[i]
  }

  lemma {:induction false} MappedRoots(execution: ExecutionId, ids: seq<TaskId>, requests: seq<TaskRequest>,
                                       tasks: seq<Task>)
    requires |ids| == |requests| == |tasks|
    requires forall i | 0 <= i < |tasks| :: tasks[i] == MappedTask(execution, ids[i], requests[i])
    ensures RootCount(tasks) == RootRequests(requests)
  {
    if tasks != [] {
      var n := |tasks| - 1;
      MappedRoots(execution, ids[..n], requests[..n], tasks[..n]);
    }
  }

  /** The mapped tasks are new exactly when the generated identifiers are. */
  lemma MappedIds(ids: seq<TaskId>, tasks: seq<Task>, rows: Rows)
    requires |ids| == |tasks| && forall i | 0 <= i < |tasks| :: tasks[i].spec.id == ids[i]
    ensures (forall i | 0 <= i < |tasks| :: tasks[i].spec.id !in rows) <==> forall i | 0 <= i < |ids| :: ids[i] !in rows
    ensures (forall i, j | 0 <= i < j < |tasks| :: tasks[i].spec.id != tasks[j].spec.id)
       <==> forall i, j | 0 <= i < j < |ids| :: ids[i] != ids[j]
  {
    assert ids == IdsOf(tasks);
  }

  lemma {:induction false} MappedRows(execution: ExecutionId, ids: seq<TaskId>, requests: seq<TaskRequest>,
                    tasks: seq<Task>, before: Rows, after: Rows)
    requires |ids| == |requests| == |tasks|
    requires forall i | 0 <= i < |tasks| :: tasks[i] == MappedTask(execution, ids[i], requests[i])
    requires FreshIds(before, tasks) && after == Inserted(before, tasks)
    ensures forall t :: t in after <==> t in before || t in ids
    ensures forall i | 0 <= i < |ids| :: ids[i] in after && after[ids[i]] == StoredTask(execution, ids[i], requests[i])
  {
    InsertedMeaning(before, tasks);
    forall i | 0 <= i < |ids|
      ensures ids[i] in after && after[ids[i]] == StoredTask(execution, ids[i], requests[i])
    {
      assert tasks[i].spec.id == ids[i];
      StoredLimit(tasks[i]);
    }
    forall t ensures t in ids <==> exists i :: 0 <= i < |tasks| && tasks[i].spec.id == t {
      assert forall i | 0 <= i < |tasks| :: tasks[i].spec.id == ids[i];
    }
  }

  lemma {:induction false} MappedQueue(execution: ExecutionId, ids: seq<TaskId>, requests: seq<TaskRequest>,
                    tasks: seq<Task>, before: seq<TaskId>, after: seq<TaskId>)
    requires |ids| == |requests| == |tasks|
    requires forall i | 0 <= i < |tasks| :: tasks[i] == MappedTask(execution, ids[i], requests[i])
    requires after == before + IdsOf(RootsOf(tasks))
    ensures RootsAppended(before, after, ids, requests)
  {
    RootsInOrder(tasks);
    MappedRoots(execution, ids, requests, tasks);
    forall i | 0 <= i < |ids| && requests[i].dependencies == []
      ensures |before| + RootRequests(requests[..i]) < |after|
      ensures after[|before| + RootRequests(requests[..i])] == ids[i]
    {
      MappedRoots(execution, ids[..i], requests[..i], tasks[..i]);
      assert tasks[i].inDegree == 0 && tasks[i].spec.id == ids[i];
    }
  }

  class WorkflowHandler {
    const service: WorkflowService

    constructor (service: WorkflowService)
      ensures this.service == service
    {
      this.service := service;
    }

    /** Map the request and submit it; `execution` and `ids` are the generated identifiers. */
    method SubmitWorkflow(execution: ExecutionId, ids: seq<TaskId>, requests: seq<TaskRequest>) returns (ok: bool)
      requires |ids| == |requests|
      modifies service.repo.db, service.queue
      ensures ok <==> && execution !in old(service.repo.db.verdicts)
                      && (forall i | 0 <= i < |ids| :: ids[i] !in old(service.repo.db.rows))
                      && (forall i, j | 0 <= i < j < |ids| :: ids[i] != ids[j])
      ensures ok ==> service.repo.db.verdicts == old(service.repo.db.verdicts)[execution := WorkflowRunning]
      ensures ok ==> forall t :: t in service.repo.db.rows <==> t in old(service.repo.db.rows) || t in ids
      ensures ok ==> forall t | t in old(service.repo.db.rows) ::
                service.repo.db.rows[t] == old(service.repo.db.rows)[t]
      ensures ok ==> forall i | 0 <= i < |ids| ::
                && ids[i] in service.repo.db.rows
                && service.repo.db.rows[ids[i]]
                   == Task(TaskSpec(ids[i], execution, requests[i].refId, requests[i].action,
                                    requests[i].dependencies, 3),
                           if requests[i].dependencies == [] then Queued else Pending,
                           0, |requests[i].dependencies|, false, None, 1)
      ensures ok ==> RootsAppended(old(service.queue.items), service.queue.items, ids, requests)
      ensures ok ==> old(service.queue.items) <= service.queue.items
                     && |service.queue.items| == |old(service.queue.items)| + RootRequests(requests)
      ensures ok ==> forall i | 0 <= i < |ids| && requests[i].dependencies == [] ::
                && |old(service.queue.items)| + RootRequests(requests[..i]) < |service.queue.items|
                && service.queue.items[|old(service.queue.items)| + RootRequests(requests[..i])] == ids[i]
      ensures !ok ==> service.repo.db.rows == old(service.repo.db.rows)
                      && service.repo.db.verdicts == old(service.repo.db.verdicts)
                      && service.queue.items == old(service.queue.items)
    {
      var tasks := ToWorkflowExecution(execution, ids, requests);
      MappedIds(ids, tasks, service.repo.db.rows);
      ok := service.SubmitWorkflow(execution, tasks);
      if ok {
        MappedRows(execution, ids, requests, tasks, old(service.repo.db.rows), service.repo.db.rows);
        MappedQueue(execution, ids, requests, tasks, old(service.queue.items), service.queue.items);
      }
    }
  }
}
