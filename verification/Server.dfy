/** The program: database, queues, bus, service, coordinator and workers put together, one undisturbed turn at a
    time. */
module Server {
  import opened Domain
  import opened WorkerSteps
  import opened Protocol
  import opened Progress
  import opened Closure
  import opened Order
  import opened Kahn
  import opened Evaluation
  import opened Repositories
  import opened Messaging
  import opened Submission
  import opened WorkerPool
  import opened CoordinatorLoop
  import opened Refinement
  import opened LateSubmission
  import opened Intake

  const MAIN_WORKER: WorkerId := 0
  const RETRY_WORKER: WorkerId := 1

  /** Nobody is in the middle of anything. */
  ghost predicate Resting(s: State) {
    && s.coordinator.Waiting? && s.workers.Keys == {MAIN_WORKER, RETRY_WORKER}
    && (forall w | w in s.workers :: s.workers[w].Idle?)
    && forall e | e in s.submitters :: s.submitters[e] == []
  }

  lemma StillResting(s: State, s': State, e: ExecutionId)
    requires Resting(s) && s'.workers == s.workers && s'.coordinator == s.coordinator
    requires s'.submitters == s.submitters[e := []]
    ensures Resting(s')
  {
  }

  class Program {
    const db: Database
    const taskRepo: TaskRepository
    const workflowRepo: WorkflowRepository
    const mainQueue: RedisQueue
    const retryQueue: RedisQueue
    const eventBus: EventBus
    const workflowHandler: WorkflowHandler
    const coord: Coordinator
    const mainWorker: Worker
    const retryWorker: Worker
    /** The workflows stored so far, and the protocol's state at this moment. */
    ghost var config: Config
    ghost var state: State

    ghost predicate Wired() {
      && taskRepo.db == db && workflowRepo.db == db && mainQueue != retryQueue
      && workflowHandler.service.repo == taskRepo && workflowHandler.service.queue == mainQueue
      && coord.taskRepo == taskRepo && coord.workflowRepo == workflowRepo
      && coord.queue == mainQueue && coord.eventBus == eventBus
      && mainWorker.queue == mainQueue && retryWorker.queue == retryQueue
      && mainWorker.workerId == MAIN_WORKER && retryWorker.workerId == RETRY_WORKER
      && WiredWorker(mainWorker) && WiredWorker(retryWorker) && mainWorker.handlers == retryWorker.handlers
    }

    ghost predicate WiredWorker(worker: Worker) {
      && worker.retryQueue == retryQueue && worker.repo == taskRepo && worker.workflowRepo == workflowRepo
      && worker.bus == eventBus
    }

    /** Tables, queues and channels are those of a state that the protocol reaches with nothing lost, with every worker
        idle and the coordinator waiting. */
    ghost predicate Valid()
      reads this, db, mainQueue, retryQueue, eventBus
    {
      && Wired()
      && Reachable(config, Reliable, state) && Resting(state)
      && config.workers == map[MAIN_WORKER := MainPool, RETRY_WORKER := RetryPool]
      && config.handlers == mainWorker.handlers
      && state.mainQueue == mainQueue.items
      && state.store == Store(db.rows, db.verdicts, retryQueue.items, eventBus.completed, eventBus.terminated)
    }

    constructor (handlers: Handlers)
      ensures Valid() && config.handlers == handlers && config.specs == map[] && config.order == map[]
      ensures fresh(db) && fresh(mainQueue) && fresh(retryQueue) && fresh(eventBus)
    {
      var database := new Database();
      var tasks := new TaskRepository(database);
      var workflows := new WorkflowRepository(database);
      var pending := new RedisQueue();
      var retries := new RedisQueue();
      var bus := new EventBus();
      var service := new WorkflowService(tasks, pending);
      workflowHandler := new WorkflowHandler(service);
      coord := new Coordinator(tasks, workflows, pending, bus);
      mainWorker := new Worker(MAIN_WORKER, pending, retries, tasks, workflows, bus, handlers);
      retryWorker := new Worker(RETRY_WORKER, retries, retries, tasks, workflows, bus, handlers);
      db, taskRepo, workflowRepo, mainQueue, retryQueue, eventBus := database, tasks, workflows, pending, retries, bus;
      ghost var empty := Config(map[], map[], map[MAIN_WORKER := MainPool, RETRY_WORKER := RetryPool], handlers);
      StartsReachable(empty);
      config, state := empty, Init(empty);
    }

    /** When both queues and both channels are empty nothing is left to do. */
    lemma DrainedIsQuiescent()
      requires Valid()
      requires mainQueue.items == [] && retryQueue.items == [] && eventBus.completed == [] && eventBus.terminated == []
      ensures Quiescent(config, state) && Staffed(config)
    {
      assert MAIN_WORKER in config.workers && RETRY_WORKER in config.workers;
      forall step | Allowed(Reliable, step) ensures !Enabled(config, state, step) {
        match step
        case Pop(w) => assert QueueOf(state, MainPool) == [] && QueueOf(state, RetryPool) == [];
        case _ =>
      }
    }

    /** Then the database holds the verdict that the request and the handlers determine. */
    lemma DrainedVerdict(e: ExecutionId, done: set<TaskId>, rank: map<TaskId, nat>)
      requires Valid() && Sound(config)
      requires mainQueue.items == [] && retryQueue.items == [] && eventBus.completed == [] && eventBus.terminated == []
      requires e in config.order && config.order[e] != [] && LeastClosed(config, done) && Ranked(config, done, rank)
      ensures e in db.verdicts && db.verdicts[e] == VerdictOf(config, done, rank, e)
      ensures forall t | t in config.order[e] ::
                t in db.rows
                && db.rows[t].status == if t in done then Evaluated(config, done, rank, t) else Pending
    {
      DrainedIsQuiescent();
      VerdictIsEvaluated(config, state, e, done, rank);
      forall t | t in config.order[e]
        ensures t in db.rows
        ensures db.rows[t].status == if t in done then Evaluated(config, done, rank, t) else Pending
      {
        assert t in config.specs;
        MatchesEvaluation(config, state, done, rank, t);
      }
    }

    /** A request arrives. */
    method Submit(execution: ExecutionId, ids: seq<TaskId>, requests: seq<TaskRequest>) returns (ok: bool)
      requires Valid() && |ids| == |requests|
      modifies this, db, mainQueue
      ensures Valid()
      ensures ok <==> NewIds(old(config), execution, ids)
      ensures ok ==> OneMore(old(config), config, execution, ids) && Requested(config, execution, ids, requests)
      ensures !ok ==> config == old(config) && state == old(state)
    {
      TablesTellNew(config, Reliable, state, execution, ids);
      ok := workflowHandler.SubmitWorkflow(execution, ids, requests);
      if ok {
        ghost var c', s' := SubmissionExtends(config, Reliable, state, execution, ids, requests,
                                              db.rows, db.verdicts, mainQueue.items);
        StillResting(state, s', execution);
        config, state := c', s';
      }
    }

    /** A thread of one of the two pools gets its turn. */
    method WorkerTurn(retry: bool)
      requires Valid()
      modifies this, db, mainQueue, retryQueue, eventBus
      ensures Valid() && config == old(config) && state.log == old(state.log)
      ensures (if retry then old(retryQueue.items) else old(mainQueue.items)) == [] ==> state == old(state)
    {
      ghost var w := if retry then RETRY_WORKER else MAIN_WORKER;
      ghost var before := state;
      if retry {
        retryWorker.ProcessNextTask();
      } else {
        mainWorker.ProcessNextTask();
      }
      if QueueOf(before, config.workers[w]) != [] {
        ghost var steps, s' := ProcessNextTaskIsARun(config, before, w);
        ExecutedIsReachable(config, Reliable, before, steps, s');
        state := s';
      }
    }

    /** The coordinator's loop takes its turn on one of the two channels. */
    method CoordinatorTurn(pick: bool)
      requires Valid()
      modifies this, db, mainQueue, eventBus
      ensures Valid() && config == old(config)
      ensures (if pick then old(eventBus.completed) else old(eventBus.terminated)) == [] ==> state == old(state)
      ensures (if pick then old(eventBus.completed) else old(eventBus.terminated)) != [] ==>
                var ev := (if pick then old(eventBus.completed) else old(eventBus.terminated))[0];
                state.log == old(state.log) + [ev.taskId]
    {
      ghost var before := state;
      ReachableKnown(config, Reliable, state);
      ghost var ready;
      var ev;
      ev, ready := coord.HandleNext(pick);
      if ev.Some? {
        ghost var steps, s' := HandleNextIsARun(config, before, pick, ready);
        ExecutedIsReachable(config, Reliable, before, steps, s');
        state := s';
      }
    }
  }
}
