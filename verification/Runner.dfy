/** The runner as the source writes it: a loop over a growing conversation and
    mutable counters, acting on a shared repository (agent/runner.py). Each method
    computes exactly what RunSemantics says. */
module Runner {
  import opened Wrappers
  import opened Messages
  import opened Tasks
  import opened Repository
  import opened Registry
  import opened RunLogic
  import opened RunSemantics

  // _RunState
  class RunState {
    var steps: nat
    var toolCalls: nat
    var inputTokens: nat
    var outputTokens: nat

    constructor ()
      ensures Counted([]) == Run([], 0, 0, NO_USAGE)
      ensures steps == 0 && toolCalls == 0 && inputTokens == 0 && outputTokens == 0
    {
      steps, toolCalls, inputTokens, outputTokens := 0, 0, 0, 0;
    }

    constructor Resuming(checkpoint: RunCheckpoint)
      ensures Counted(checkpoint.messages) == RunLogic.Resuming(checkpoint)
      ensures steps == checkpoint.steps && toolCalls == checkpoint.toolCalls
      ensures TokenUsage(inputTokens, outputTokens) == checkpoint.usage
    {
      steps := checkpoint.steps;
      toolCalls := checkpoint.toolCalls;
      inputTokens := checkpoint.usage.inputTokens;
      outputTokens := checkpoint.usage.outputTokens;
    }

    function Usage(): TokenUsage
      reads this
    {
      TokenUsage(inputTokens, outputTokens)
    }

    // The counters together with the conversation they belong to.
    function Counted(messages: seq<Message>): Run
      reads this
    {
      Run(messages, steps, toolCalls, Usage())
    }

    method Record(usage: TokenUsage)
      modifies this
      ensures Usage() == old(Usage()).Plus(usage)
      ensures inputTokens == old(inputTokens) + usage.inputTokens
      ensures outputTokens == old(outputTokens) + usage.outputTokens
      ensures steps == old(steps) && toolCalls == old(toolCalls)
    {
      inputTokens := inputTokens + usage.inputTokens;
      outputTokens := outputTokens + usage.outputTokens;
    }
  }

  class AgentRunner<W(!new)> {
    const cfg: Config
    const env: Environment<W>
    const registry: ToolRegistry
    const repository: InMemoryTaskRepository
    var world: W
    var clock: int
    ghost var batches: seq<seq<ToolCall>>
    ghost var requests: seq<seq<Message>>

    constructor (cfg: Config, env: Environment<W>, registry: ToolRegistry, repository: InMemoryTaskRepository, world: W)
      requires cfg.Valid() && registry.tools == cfg.tools && repository.Valid()
      ensures Valid() && this.cfg == cfg && this.env == env
      ensures this.registry == registry && this.repository == repository
      ensures View() == Sys(repository.tasks, world, 0, [], [])
    {
      this.cfg := cfg;
      this.env := env;
      this.registry := registry;
      this.repository := repository;
      this.world := world;
      clock := 0;
      batches := [];
      requests := [];
    }

    // The registry is as it was at startup.
    ghost predicate Valid()
      reads this, registry, repository
    {
      cfg.Valid() && registry.tools == cfg.tools && repository.Valid()
    }

    ghost function View(): Sys<W>
      reads this, repository
    {
      Sys(repository.tasks, world, clock, batches, requests)
    }

    method Transition(id: TaskId, target: TaskStatus, reason: Reason, checkpoint: Option<RunCheckpoint>,
                      expectedVersion: Option<nat>)
      returns (r: Result<AgentTask, Error>)
      requires Valid()
      modifies this, repository
      ensures Valid()
      ensures r == Transitioned(old(View()), id, target, reason, checkpoint, expectedVersion)
      ensures View() == old(View()).Committing(r)
      ensures r.Failure? ==> View() == old(View())
      ensures r.Success? ==> r.value.id == id
      ensures id in old(repository.tasks) ==> id in repository.tasks
    {
      ghost var before := View();
      r := TransitionTask(repository, id, target, reason, checkpoint, expectedVersion, clock);
      assert r == Transitioned(before, id, target, reason, checkpoint, expectedVersion);
      assert repository.tasks == Written(before.tasks, r);
      if r.Success? {
        clock := clock + 1;
      }
    }

    // Waiting gives the other actors their turn.
    method Wait(id: TaskId)
      requires Valid()
      modifies this, repository
      ensures Valid() && View() == AfterWaiting(env, old(View()), id)
      ensures id in old(repository.tasks) ==> id in repository.tasks
    {
      var cancelled := env.cancelled(world);
      if cancelled.Some? {
        var _ := Transition(id, Cancelled, CancelledBy(cancelled.value, None), None, None);
      }
    }

    method Complete(id: TaskId, messages: seq<Message>) returns (reply: ModelReply)
      requires Valid()
      modifies this, repository
      ensures Valid() && (View(), reply) == AfterAsking(env, old(View()), id, messages)
      ensures id in old(repository.tasks) ==> id in repository.tasks
    {
      var answer := env.ask(world, messages);
      world := answer.0;
      requests := requests + [messages];
      reply := answer.1;
      Wait(id);
    }

    method ExecuteAll(id: TaskId, calls: seq<ToolCall>) returns (results: seq<ToolResult>)
      requires Valid()
      modifies this, repository
      ensures Valid() && (View(), results) == AfterActing(cfg, env, old(View()), id, calls)
      ensures id in old(repository.tasks) ==> id in repository.tasks
    {
      var acted := env.act(world, calls);
      world := acted.0;
      batches := batches + [calls];
      results := registry.ExecuteAll(calls, acted.1);
      Wait(id);
    }

    method Answer(id: TaskId, messages: seq<Message>, state: RunState, calls: seq<ToolCall>)
      returns (extended: seq<Message>)
      requires Valid()
      modifies this, repository, state
      ensures Valid()
      ensures (View(), state.Counted(extended))
              == Answering(cfg, env, old(View()), id, old(state.Counted(messages)), calls)
      ensures state.steps == old(state.steps)
      ensures id in old(repository.tasks) ==> id in repository.tasks
    {
      var results := ExecuteAll(id, calls);
      state.toolCalls := state.toolCalls + |results|;
      extended := messages + [Message.WithToolResults(results)];
    }

    method Discard(id: TaskId, messages: seq<Message>, state: RunState) returns (r: RunResult)
      requires Valid() && id in repository.tasks
      ensures (View(), r) == Discarding(View(), id, state.Counted(messages))
      ensures r.task == repository.tasks[id] && r.detail == RunStopped(r.task.status)
      ensures r.output == "" && r.pendingCalls == []
    {
      var task := repository.tasks[id];
      r := RunResult(task, "", RunStopped(task.status), state.steps, state.toolCalls, state.Usage(), []);
    }

    method Finish(
        id: TaskId, messages: seq<Message>, state: RunState, status: TaskStatus, reason: Reason, output: string,
        checkpoint: Option<RunCheckpoint>)
      returns (r: RunResult)
      requires Valid() && id in repository.tasks
      modifies this, repository
      ensures Valid()
      ensures var run := old(state.Counted(messages));
              (View(), r) == Finishing(old(View()), id, run, status, reason, output, checkpoint)
      ensures id in repository.tasks && r.task == repository.tasks[id]
      ensures r.steps == old(state.steps) && r.toolCalls == old(state.toolCalls)
      ensures r.usage == TokenUsage(old(state.inputTokens), old(state.outputTokens))
      ensures if status in Allowed(old(repository.tasks[id].status)) && CheckpointFits(status, checkpoint) then
                && r.output == output && r.detail == reason
                && r.task.status == status && r.task.checkpoint == checkpoint
                && r.pendingCalls == (if checkpoint.Some? then checkpoint.value.PendingCalls() else [])
              else
                && repository.tasks == old(repository.tasks)
                && r.output == "" && r.detail == RunStopped(r.task.status) && r.pendingCalls == []
    {
      hide AtomicTransition, Keyed, Transitioned, Sys.Committing;
      ghost var before := View();
      ghost var run := state.Counted(messages);
      var moved := Transition(id, status, reason, checkpoint, None);
      match moved {
        case Failure(_) =>
          r := Discard(id, messages, state);
        case Success(task) =>
          var held := if checkpoint.Some? then checkpoint.value.PendingCalls() else [];
          r := RunResult(task, output, reason, state.steps, state.toolCalls, state.Usage(), held);
      }
      assert (View(), r) == Finishing(before, id, run, status, reason, output, checkpoint);
      WhatFinishingReports(before, id, run, status, reason, output, checkpoint);
    }

    method StillRunning(id: TaskId) returns (running: bool)
      requires id in repository.tasks
      ensures running <==> repository.tasks[id].status == Running
    {
      running := repository.tasks[id].status == Running;
    }

    method Drive(id: TaskId, opening: seq<Message>, state: RunState) returns (r: RunResult)
      requires Valid() && id in repository.tasks
      modifies this, repository, state
      ensures Valid()
      ensures (View(), r) == Driving(cfg, env, old(View()), id, old(state.Counted(opening)))
    {
      hide AfterWaiting, Finishing, Discarding, Driving, AfterAsking, InMemoryTaskRepository.Valid;
      ghost var meant := Driving(cfg, env, View(), id, state.Counted(opening));
      var messages := opening;
      while state.steps < cfg.maxSteps
        invariant Valid() && id in repository.tasks
        invariant Driving(cfg, env, View(), id, state.Counted(messages)) == meant
        decreases cfg.maxSteps - state.steps
      {
        OneTurn(cfg, env, View(), id, state.Counted(messages));
        if state.steps > 0 {
          var running := StillRunning(id);
          if !running {
            r := Discard(id, messages, state);
            assert (View(), r) == meant;
            return;
          }
        }
        ghost var before, head := View(), state.Counted(messages);
        state.steps := state.steps + 1;
        var reply := Complete(id, messages);
        ghost var asked := View();
        ghost var (next, decision) := AfterReply(cfg, head.(steps := head.steps + 1), reply);
        assert meant == AfterDeciding(cfg, env, asked, id, next, decision);
        if reply.CallFailed? {
          r := Finish(id, messages, state, Failed, ModelCallFailed(reply.errorType), "", None);
          assert (View(), r) == meant;
          return;
        }
        var completion := reply.completion;
        state.Record(completion.usage);
        if completion.stopReason != ToolUse {
          r := Conclude(id, messages, completion, state);
          assert (View(), r) == meant;
          return;
        }
        messages := messages + [Message.FromCompletion(completion)];
        if cfg.TripsTheGate(completion.toolCalls) {
          r := Finish(id, messages, state, AwaitingApproval,
                      ApprovalRequired(cfg.NamesToApprove(completion.toolCalls)), completion.text,
                      Some(RunCheckpoint(messages, state.steps, state.toolCalls, state.Usage())));
          assert (View(), r) == meant;
          return;
        }
        messages := Answer(id, messages, state, completion.toolCalls);
      }
      OneTurn(cfg, env, View(), id, state.Counted(messages));
      r := Finish(id, messages, state, Failed, BudgetExhausted(cfg.maxSteps), "", None);
      assert (View(), r) == meant;
    }

    method Conclude(id: TaskId, messages: seq<Message>, completion: Completion, state: RunState) returns (r: RunResult)
      requires Valid() && id in repository.tasks
      modifies this, repository
      ensures Valid()
      ensures var Settle(status, reason, output, _) := Conclusion(cfg, completion);
              var run := old(state.Counted(messages));
              (View(), r) == Finishing(old(View()), id, run, status, reason, output, None)
      ensures old(repository.tasks[id].status) == Running ==>
                match completion.stopReason
                case MaxTokens =>
                  r.task.status == Failed && r.detail == AnswerTruncated(cfg.maxTokens) && r.output == ""
                case Refusal => r.task.status == Failed && r.detail == ModelRefused && r.output == ""
                case _ => r.task.status == Completed && r.detail == RunCompleted && r.output == completion.text
    {
      if completion.stopReason == MaxTokens {
        r := Finish(id, messages, state, Failed, AnswerTruncated(cfg.maxTokens), "", None);
      } else if completion.stopReason == Refusal {
        r := Finish(id, messages, state, Failed, ModelRefused, "", None);
      } else {
        r := Finish(id, messages, state, Completed, RunCompleted, completion.text, None);
      }
    }

    method Continue(id: TaskId, checkpoint: RunCheckpoint) returns (r: RunResult)
      requires Valid() && id in repository.tasks
      modifies this, repository
      ensures Valid()
      ensures (View(), r) == Continuing(cfg, env, old(View()), id, checkpoint)
    {
      var state := new RunState.Resuming(checkpoint);
      var messages := Answer(id, checkpoint.messages, state, checkpoint.PendingCalls());
      r := Drive(id, messages, state);
    }

    method RunTask(id: TaskId) returns (r: Result<RunResult, Error>)
      requires Valid()
      modifies this, repository
      ensures Valid()
      ensures (View(), r) == Starting(cfg, env, old(View()), id)
      ensures r.Failure? ==> View() == old(View())
      ensures r.Failure? ==> r.error == if id !in old(repository.tasks) then TaskNotFound(id)
                                        else InvalidTransition(old(repository.tasks)[id].status, Running)
      ensures r.Success? ==>
                && id in old(repository.tasks)
                && var goal := old(repository.tasks)[id].goal;
                   old(requests) + [[Message(User, "Task goal:\n" + goal, [], [])]] <= requests
    {
      ghost var before := View();
      RunsOpenWithTheGoal(cfg, env, before, id);
      var started := Transition(id, Running, RunStarted, None, None);
      if started.Failure? {
        return Failure(started.error);
      }
      var state := new RunState();
      var result := Drive(id, [Opening(started.value.goal)], state);
      r := Success(result);
    }

    method FindPaused(id: TaskId) returns (r: Result<AgentTask, Error>)
      requires Valid()
      ensures r == RequirePaused(View(), id)
    {
      r := repository.Get(id);
      if r.Success? && r.value.status != AwaitingApproval {
        r := Failure(InvalidTransition(r.value.status, Running));
      }
    }

    method Resume(id: TaskId, approver: string, note: Option<string>) returns (r: Result<RunResult, Error>)
      requires Valid()
      modifies this, repository
      ensures Valid()
      ensures (View(), r) == Approving(cfg, env, old(View()), id, approver, note)
      ensures id !in old(repository.tasks) ==> r == Failure(TaskNotFound(id)) && View() == old(View())
      ensures id in old(repository.tasks) && old(repository.tasks)[id].status != AwaitingApproval ==>
                r == Failure(InvalidTransition(old(repository.tasks)[id].status, Running)) && View() == old(View())
    {
      var paused := FindPaused(id);
      if paused.Failure? {
        return Failure(paused.error);
      }
      var checkpoint := paused.value.checkpoint;
      if checkpoint.None? {
        return Failure(NotResumable(id));
      }
      var moved := Transition(id, Running, ApprovedBy(approver, note), None, Some(paused.value.version));
      match moved {
        case Failure(error) => r := Failure(error);
        case Success(_) =>
          var result := Continue(id, checkpoint.value);
          r := Success(result);
      }
    }

    method Reject(id: TaskId, rejecter: string, why: Option<string>) returns (r: Result<AgentTask, Error>)
      requires Valid()
      modifies this, repository
      ensures Valid()
      ensures (View(), r) == Rejecting(old(View()), id, rejecter, why)
      ensures id !in old(repository.tasks) ==> r == Failure(TaskNotFound(id)) && View() == old(View())
      ensures id in old(repository.tasks) && old(repository.tasks)[id].status != AwaitingApproval ==>
                r == Failure(InvalidTransition(old(repository.tasks)[id].status, Running)) && View() == old(View())
      ensures var record := StatusTransition(AwaitingApproval, Cancelled, old(clock), RejectedBy(rejecter, why));
              id in old(repository.tasks) && old(repository.tasks)[id].status == AwaitingApproval ==>
                && r.Success? && r.value.status == Cancelled && r.value.checkpoint.None?
                && r.value.history == old(repository.tasks)[id].history + [record]
                && repository.tasks == old(repository.tasks)[id := r.value]
    {
      var paused := FindPaused(id);
      if paused.Failure? {
        return Failure(paused.error);
      }
      r := Transition(id, Cancelled, RejectedBy(rejecter, why), None, Some(paused.value.version));
    }
  }
}
