/** What one undisturbed caller of the runner computes (agent/runner.py), as
    functions on the store, the world outside and the clock. Other actors appear
    as cancellations that may arrive while the caller waits. */
module RunSemantics {
  import opened Wrappers
  import opened Messages
  import opened Tasks
  import opened Listing
  import opened Repository
  import opened Registry
  import opened RunLogic

  // The model, the tools' handlers and the other actors, all driven by one state
  // of the world; `cancelled` says who cancelled the task during the last wait.
  datatype Environment<!W> = Environment(
    ask: (W, seq<Message>) -> (W, ModelReply),
    act: (W, seq<ToolCall>) -> (W, nat -> HandlerOutcome),
    cancelled: W -> Option<string>)

  ghost predicate Sane<W(!new)>(env: Environment<W>) {
    forall w: W, ms: seq<Message> :: env.ask(w, ms).1.Valid()
  }

  ghost predicate Undisturbed<W(!new)>(env: Environment<W>) {
    forall w: W :: env.cancelled(w).None?
  }

  // The batches are those executed so far, the requests those sent to the model.
  datatype Sys<W> = Sys(tasks: Store, world: W, clock: int, batches: seq<seq<ToolCall>>, requests: seq<seq<Message>>) {
    // The store after an attempted transition; the clock moves when it succeeds.
    function Committing(r: Result<AgentTask, Error>): Sys<W> {
      if r.Success? then this.(tasks := Written(tasks, r), clock := clock + 1) else this
    }
  }

  function Transitioned<W>(s: Sys<W>, id: TaskId, target: TaskStatus, reason: Reason,
                           checkpoint: Option<RunCheckpoint>, expectedVersion: Option<nat>)
    : Result<AgentTask, Error>
  {
    AtomicTransition(s.tasks, id, target, reason, checkpoint, expectedVersion, s.clock)
  }

  // What may have happened to the task while the caller was waiting.
  function AfterWaiting<W>(env: Environment<W>, s: Sys<W>, id: TaskId): Sys<W> {
    match env.cancelled(s.world)
    case None => s
    case Some(who) => s.Committing(Transitioned(s, id, Cancelled, CancelledBy(who, None), None, None))
  }

  function AfterAsking<W>(env: Environment<W>, s: Sys<W>, id: TaskId, messages: seq<Message>): (Sys<W>, ModelReply) {
    var (world, reply) := env.ask(s.world, messages);
    (AfterWaiting(env, s.(world := world, requests := s.requests + [messages]), id), reply)
  }

  function AfterActing<W>(cfg: Config, env: Environment<W>, s: Sys<W>, id: TaskId, calls: seq<ToolCall>)
    : (Sys<W>, seq<ToolResult>)
  {
    var (world, outcomes) := env.act(s.world, calls);
    (AfterWaiting(env, s.(world := world, batches := s.batches + [calls]), id), ResultsOf(cfg.tools, calls, outcomes))
  }

  // The calls of the last turn are executed and answered.
  function Answering<W>(cfg: Config, env: Environment<W>, s: Sys<W>, id: TaskId, run: Run, calls: seq<ToolCall>)
    : (Sys<W>, Run)
  {
    var (acted, results) := AfterActing(cfg, env, s, id, calls);
    (acted, AfterResults(run, results))
  }

  // _discard
  function Discarding<W>(s: Sys<W>, id: TaskId, run: Run): (Sys<W>, RunResult)
    requires id in s.tasks
  {
    (s, RunResult(s.tasks[id], "", RunStopped(s.tasks[id].status), run.steps, run.toolCalls, run.usage, []))
  }

  // _finish
  function Finishing<W>(s: Sys<W>, id: TaskId, run: Run, status: TaskStatus, reason: Reason, output: string,
                        checkpoint: Option<RunCheckpoint>)
    : (Sys<W>, RunResult)
    requires id in s.tasks
  {
    var r := Transitioned(s, id, status, reason, checkpoint, None);
    match r
    case Failure(_) => Discarding(s, id, run)
    case Success(task) => (s.Committing(r), Settling(task, run, reason, output, checkpoint))
  }

  // _drive
  function Driving<W>(cfg: Config, env: Environment<W>, s: Sys<W>, id: TaskId, run: Run): (Sys<W>, RunResult)
    requires id in s.tasks
    decreases (if run.steps < cfg.maxSteps then cfg.maxSteps - run.steps else 0), 0
  {
    if run.steps >= cfg.maxSteps then
      Finishing(s, id, run, Failed, BudgetExhausted(cfg.maxSteps), "", None)
    else if run.steps > 0 && s.tasks[id].status != Running then
      Discarding(s, id, run)
    else
      var asking := run.(steps := run.steps + 1);
      var (asked, reply) := AfterAsking(env, s, id, run.messages);
      var (next, decision) := AfterReply(cfg, asking, reply);
      AfterDeciding(cfg, env, asked, id, next, decision)
  }

  // The rest of an iteration of _drive, once the model has replied.
  function AfterDeciding<W>(cfg: Config, env: Environment<W>, s: Sys<W>, id: TaskId, run: Run, decision: Decision)
    : (Sys<W>, RunResult)
    requires id in s.tasks
    decreases (if run.steps < cfg.maxSteps then cfg.maxSteps - run.steps else 0), 1
  {
    match decision
    case Settle(status, reason, output, checkpoint) => Finishing(s, id, run, status, reason, output, checkpoint)
    case Execute(calls) =>
      var (acted, answered) := Answering(cfg, env, s, id, run, calls);
      Driving(cfg, env, acted, id, answered)
  }

  // _continue
  function Continuing<W>(cfg: Config, env: Environment<W>, s: Sys<W>, id: TaskId, checkpoint: RunCheckpoint)
    : (Sys<W>, RunResult)
    requires id in s.tasks
  {
    var (acted, answered) := Answering(cfg, env, s, id, Resuming(checkpoint), checkpoint.PendingCalls());
    Driving(cfg, env, acted, id, answered)
  }

  // run
  function Starting<W>(cfg: Config, env: Environment<W>, s: Sys<W>, id: TaskId): (Sys<W>, Result<RunResult, Error>)
    requires Keyed(s.tasks)
  {
    var r := Transitioned(s, id, Running, RunStarted, None, None);
    match r
    case Failure(error) => (s, Failure(error))
    case Success(task) =>
      var (ended, result) := Driving(cfg, env, s.Committing(r), id, FreshRun(task.goal));
      (ended, Success(result))
  }

  // _require_paused
  function RequirePaused<W>(s: Sys<W>, id: TaskId): Result<AgentTask, Error> {
    if id !in s.tasks then Failure(TaskNotFound(id))
    else if s.tasks[id].status != AwaitingApproval then Failure(InvalidTransition(s.tasks[id].status, Running))
    else Success(s.tasks[id])
  }

  // resume
  function Approving<W>(cfg: Config, env: Environment<W>, s: Sys<W>, id: TaskId, approver: string, note: Option<string>)
    : (Sys<W>, Result<RunResult, Error>)
    requires Keyed(s.tasks)
  {
    match RequirePaused(s, id)
    case Failure(error) => (s, Failure(error))
    case Success(paused) =>
      if paused.checkpoint.None? then (s, Failure(NotResumable(id)))
      else
        var r := Transitioned(s, id, Running, ApprovedBy(approver, note), None, Some(paused.version));
        match r
        case Failure(error) => (s, Failure(error))
        case Success(_) =>
          var (ended, result) := Continuing(cfg, env, s.Committing(r), id, paused.checkpoint.value);
          (ended, Success(result))
  }

  // approve_task: the second-person check reads the task before `resume` does.
  function ApprovingTask<W>(
      cfg: Config, env: Environment<W>, s: Sys<W>, id: TaskId, approver: string, note: Option<string>)
    : (Sys<W>, Result<RunResult, Error>)
    requires Keyed(s.tasks)
  {
    if id in s.tasks && cfg.requiresSecondPerson && approver == s.tasks[id].requestedBy then (s, Failure(Forbidden(id)))
    else Approving(cfg, env, s, id, approver, note)
  }

  // reject
  function Rejecting<W>(s: Sys<W>, id: TaskId, rejecter: string, why: Option<string>)
    : (Sys<W>, Result<AgentTask, Error>)
  {
    match RequirePaused(s, id)
    case Failure(error) => (s, Failure(error))
    case Success(paused) =>
      var r := Transitioned(s, id, Cancelled, RejectedBy(rejecter, why), None, Some(paused.version));
      (s.Committing(r), r)
  }

  // One turn of the loop.
  lemma OneTurn<W(!new)>(cfg: Config, env: Environment<W>, s: Sys<W>, id: TaskId, run: Run)
    requires id in s.tasks
    ensures Driving(cfg, env, s, id, run)
            == if run.steps >= cfg.maxSteps then
                 Finishing(s, id, run, Failed, BudgetExhausted(cfg.maxSteps), "", None)
               else if run.steps > 0 && s.tasks[id].status != Running then
                 Discarding(s, id, run)
               else
                 var (asked, reply) := AfterAsking(env, s, id, run.messages);
                 var (next, decision) := AfterReply(cfg, run.(steps := run.steps + 1), reply);
                 AfterDeciding(cfg, env, asked, id, next, decision)
  {}

  // --- What every drive keeps ----------------------------------------------------------

  // While a run waits, its task stays in the store, running or cancelled.
  lemma WaitingKeepsKeys<W(!new)>(env: Environment<W>, s: Sys<W>, id: TaskId)
    requires Keyed(s.tasks) && id in s.tasks
    ensures var t := AfterWaiting(env, s, id);
            && Keyed(t.tasks) && id in t.tasks
            && (s.tasks[id].status == Running || s.tasks[id].status == Cancelled ==>
                  t.tasks[id].status == Running || t.tasks[id].status == Cancelled)
  {}

  lemma FinishingKeepsKeys<W(!new)>(
      s: Sys<W>, id: TaskId, run: Run, status: TaskStatus, reason: Reason, output: string,
      checkpoint: Option<RunCheckpoint>)
    requires Keyed(s.tasks) && id in s.tasks
    ensures var (ended, result) := Finishing(s, id, run, status, reason, output, checkpoint);
            && Keyed(ended.tasks) && id in ended.tasks && result.task == ended.tasks[id]
            && (result.task.status == AwaitingApproval && s.tasks[id].status != AwaitingApproval ==>
                  status == AwaitingApproval && result.task.checkpoint == checkpoint)
  {}

  // A reply spends no step; a pause holds the steps spent.
  lemma StepsStay(cfg: Config, run: Run, reply: ModelReply)
    ensures var (next, decision) := AfterReply(cfg, run, reply);
            && next.steps == run.steps
            && (decision.Settle? && decision.status == AwaitingApproval ==>
                  decision.checkpoint.Some? && decision.checkpoint.value.steps == run.steps)
  {}

  lemma {:induction false} DrivingKeepsKeys<W(!new)>(cfg: Config, env: Environment<W>, s: Sys<W>, id: TaskId, run: Run)
    requires Keyed(s.tasks) && id in s.tasks
    ensures Keyed(Driving(cfg, env, s, id, run).0.tasks)
    decreases if run.steps < cfg.maxSteps then cfg.maxSteps - run.steps else 0
  {
    hide Keyed, AfterWaiting, Finishing, AfterReply;
    if run.steps < cfg.maxSteps && (run.steps == 0 || s.tasks[id].status == Running) {
      var (world, reply) := env.ask(s.world, run.messages);
      var sent := s.(world := world, requests := s.requests + [run.messages]);
      WaitingKeepsKeys(env, sent, id);
      var asked := AfterWaiting(env, sent, id);
      var (next, decision) := AfterReply(cfg, run.(steps := run.steps + 1), reply);
      StepsStay(cfg, run.(steps := run.steps + 1), reply);
      match decision
      case Settle(status, reason, output, checkpoint) =>
        FinishingKeepsKeys(asked, id, next, status, reason, output, checkpoint);
      case Execute(calls) =>
        WaitingKeepsKeys(env, asked.(world := env.act(asked.world, calls).0, batches := asked.batches + [calls]), id);
        var (acted, answered) := Answering(cfg, env, asked, id, next, calls);
        DrivingKeepsKeys(cfg, env, acted, id, answered);
    } else {
      FinishingKeepsKeys(s, id, run, Failed, BudgetExhausted(cfg.maxSteps), "", None);
    }
  }

  lemma ApprovingKeepsKeys<W(!new)>(
      cfg: Config, env: Environment<W>, s: Sys<W>, id: TaskId, approver: string, note: Option<string>)
    requires Keyed(s.tasks)
    ensures Keyed(Approving(cfg, env, s, id, approver, note).0.tasks)
  {
    var paused := RequirePaused(s, id);
    if paused.Success? && paused.value.checkpoint.Some? {
      var checkpoint := paused.value.checkpoint.value;
      var r := Transitioned(s, id, Running, ApprovedBy(approver, note), None, Some(paused.value.version));
      if r.Success? {
        var calls := checkpoint.PendingCalls();
        var (acted, answered) := Answering(cfg, env, s.Committing(r), id, Resuming(checkpoint), calls);
        DrivingKeepsKeys(cfg, env, acted, id, answered);
      }
    }
  }

  // A drive that comes back paused has spent a step it did not have spent before,
  // within the budget, whoever cancels meanwhile.
  lemma {:induction false} PausingSpendsAStep<W(!new)>(
      cfg: Config, env: Environment<W>, s: Sys<W>, id: TaskId, run: Run)
    requires Keyed(s.tasks) && id in s.tasks && (s.tasks[id].status == Running || s.tasks[id].status == Cancelled)
    ensures var (ended, result) := Driving(cfg, env, s, id, run);
            && id in ended.tasks && result.task == ended.tasks[id]
            && (result.task.status == AwaitingApproval ==>
                  && result.task.checkpoint.Some?
                  && run.steps < result.task.checkpoint.value.steps <= cfg.maxSteps)
    decreases if run.steps < cfg.maxSteps then cfg.maxSteps - run.steps else 0
  {
    hide Keyed, AfterWaiting, Finishing, AfterReply;
    if run.steps < cfg.maxSteps && (run.steps == 0 || s.tasks[id].status == Running) {
      var (world, reply) := env.ask(s.world, run.messages);
      var sent := s.(world := world, requests := s.requests + [run.messages]);
      WaitingKeepsKeys(env, sent, id);
      var asked := AfterWaiting(env, sent, id);
      var (next, decision) := AfterReply(cfg, run.(steps := run.steps + 1), reply);
      StepsStay(cfg, run.(steps := run.steps + 1), reply);
      match decision
      case Settle(status, reason, output, checkpoint) =>
        FinishingKeepsKeys(asked, id, next, status, reason, output, checkpoint);
      case Execute(calls) =>
        WaitingKeepsKeys(env, asked.(world := env.act(asked.world, calls).0, batches := asked.batches + [calls]), id);
        var (acted, answered) := Answering(cfg, env, asked, id, next, calls);
        PausingSpendsAStep(cfg, env, acted, id, answered);
    } else {
      FinishingKeepsKeys(s, id, run, Failed, BudgetExhausted(cfg.maxSteps), "", None);
    }
  }

  lemma WaitingOnlyAppends<W(!new)>(env: Environment<W>, s: Sys<W>, id: TaskId)
    requires Keyed(s.tasks) && id in s.tasks
    ensures var t := AfterWaiting(env, s, id);
            && Keyed(t.tasks) && id in t.tasks
            && t.requests == s.requests && t.batches == s.batches
            && s.tasks[id].history <= t.tasks[id].history
  {}

  lemma FinishingOnlyAppends<W(!new)>(
      s: Sys<W>, id: TaskId, run: Run, status: TaskStatus, reason: Reason, output: string,
      checkpoint: Option<RunCheckpoint>)
    requires Keyed(s.tasks) && id in s.tasks
    ensures var ended := Finishing(s, id, run, status, reason, output, checkpoint).0;
            && id in ended.tasks
            && ended.requests == s.requests && ended.batches == s.batches
            && s.tasks[id].history <= ended.tasks[id].history
  {}

  // A drive only adds: to the requests, to the batches and to the task's history.
  lemma {:induction false} DrivingOnlyAppends<W(!new)>(
      cfg: Config, env: Environment<W>, s: Sys<W>, id: TaskId, run: Run)
    requires Keyed(s.tasks) && id in s.tasks
    ensures var ended := Driving(cfg, env, s, id, run).0;
            && id in ended.tasks
            && s.requests <= ended.requests && s.batches <= ended.batches
            && s.tasks[id].history <= ended.tasks[id].history
            && (run.steps == 0 < cfg.maxSteps ==> s.requests + [run.messages] <= ended.requests)
    decreases if run.steps < cfg.maxSteps then cfg.maxSteps - run.steps else 0
  {
    hide Keyed, AfterWaiting, Finishing, AfterReply;
    if run.steps < cfg.maxSteps && (run.steps == 0 || s.tasks[id].status == Running) {
      var (world, reply) := env.ask(s.world, run.messages);
      var sent := s.(world := world, requests := s.requests + [run.messages]);
      WaitingOnlyAppends(env, sent, id);
      var asked := AfterWaiting(env, sent, id);
      var (next, decision) := AfterReply(cfg, run.(steps := run.steps + 1), reply);
      StepsStay(cfg, run.(steps := run.steps + 1), reply);
      match decision
      case Settle(status, reason, output, checkpoint) =>
        FinishingOnlyAppends(asked, id, next, status, reason, output, checkpoint);
      case Execute(calls) =>
        var acting := asked.(world := env.act(asked.world, calls).0, batches := asked.batches + [calls]);
        WaitingOnlyAppends(env, acting, id);
        var (acted, answered) := Answering(cfg, env, asked, id, next, calls);
        DrivingOnlyAppends(cfg, env, acted, id, answered);
    } else {
      FinishingOnlyAppends(s, id, run, Failed, BudgetExhausted(cfg.maxSteps), "", None);
    }
  }

  // A run that is started tells the model its task's goal, and nothing else, first.
  lemma RunsOpenWithTheGoal<W(!new)>(cfg: Config, env: Environment<W>, s: Sys<W>, id: TaskId)
    requires cfg.Valid() && Keyed(s.tasks)
    ensures var (ended, outcome) := Starting(cfg, env, s, id);
            if outcome.Success? then
              && id in s.tasks && (s.tasks[id].status == Pending || s.tasks[id].status == AwaitingApproval)
              && s.requests + [[Message(User, "Task goal:\n" + s.tasks[id].goal, [], [])]] <= ended.requests
            else
              && ended == s
              && outcome.error == if id !in s.tasks then TaskNotFound(id)
                                  else InvalidTransition(s.tasks[id].status, Running)
  {
    hide Driving;
    var r := Transitioned(s, id, Running, RunStarted, None, None);
    if r.Success? {
      DrivingOnlyAppends(cfg, env, s.Committing(r), id, FreshRun(r.value.goal));
    }
  }

  // What settling a run hands back, and what it leaves stored.
  lemma WhatFinishingReports<W(!new)>(s: Sys<W>, id: TaskId, run: Run, status: TaskStatus, reason: Reason,
                                      output: string, checkpoint: Option<RunCheckpoint>)
    requires Keyed(s.tasks) && id in s.tasks
    ensures var (ended, r) := Finishing(s, id, run, status, reason, output, checkpoint);
            && id in ended.tasks && r.task == ended.tasks[id]
            && r.steps == run.steps && r.toolCalls == run.toolCalls && r.usage == run.usage
            && if status in Allowed(s.tasks[id].status) && CheckpointFits(status, checkpoint) then
                 && r.output == output && r.detail == reason
                 && r.task.status == status && r.task.checkpoint == checkpoint
                 && r.pendingCalls == (if checkpoint.Some? then checkpoint.value.PendingCalls() else [])
               else
                 && ended == s && r.output == "" && r.detail == RunStopped(r.task.status) && r.pendingCalls == []
  {}

  // Approvals and rejections are refused alike where nothing is paused.
  lemma NothingPausedIsRefused<W(!new)>(
      cfg: Config, env: Environment<W>, s: Sys<W>, id: TaskId, who: string, note: Option<string>)
    requires Keyed(s.tasks) && (id !in s.tasks || s.tasks[id].status != AwaitingApproval)
    ensures var error := if id !in s.tasks then TaskNotFound(id) else InvalidTransition(s.tasks[id].status, Running);
            && Approving(cfg, env, s, id, who, note) == (s, Failure(error))
            && Rejecting(s, id, who, note) == (s, Failure(error))
  {}

  // `run` is documented to take pending tasks only and to refuse every other. It
  // does so exactly when the task is not waiting for approval: a paused task is
  // restarted, because the lifecycle table allows the edge for `resume`.
  lemma RunIsAsDocumentedUnlessPaused<W(!new)>(cfg: Config, env: Environment<W>, s: Sys<W>, id: TaskId)
    requires Keyed(s.tasks) && id in s.tasks
    ensures (Starting(cfg, env, s, id).1.Success? <==> s.tasks[id].status == Pending)
            <==> s.tasks[id].status != AwaitingApproval
  {
    var r := Transitioned(s, id, Running, RunStarted, None, None);
    assert r.Success? <==> s.tasks[id].status == Pending || s.tasks[id].status == AwaitingApproval;
  }
}
