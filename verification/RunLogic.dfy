/** What one step of a run does to its conversation and counters
    (agent/runner.py: `_RunState`, `_needs_approval`, `_conclude` and the body of
    `_drive`). The sequential runner and the concurrent protocol both use it. */
module RunLogic {
  import opened Wrappers
  import opened Messages
  import opened Tasks
  import opened Registry

  // What is fixed when the service starts.
  datatype Config = Config(
    maxSteps: nat,
    maxTokens: nat,
    autoApproveUpTo: RiskLevel,
    tools: map<string, Tool>,
    requiresSecondPerson: bool)
  {
    predicate Valid() {
      maxSteps >= 1
    }

    predicate NeedsApproval(call: ToolCall) {
      call.name in tools && tools[call.name].risk.Rank() > autoApproveUpTo.Rank()
    }

    predicate TripsTheGate(calls: seq<ToolCall>) {
      exists i | 0 <= i < |calls| :: NeedsApproval(calls[i])
    }

    function NamesToApprove(calls: seq<ToolCall>): set<string> {
      set i | 0 <= i < |calls| && NeedsApproval(calls[i]) :: calls[i].name
    }
  }

  // The conversation and the counters of one run.
  datatype Run = Run(messages: seq<Message>, steps: nat, toolCalls: nat, usage: TokenUsage) {
    function Checkpoint(): RunCheckpoint {
      RunCheckpoint(messages, steps, toolCalls, usage)
    }
  }

  datatype ModelReply = CallFailed(errorType: string) | Replied(completion: Completion) {
    predicate Valid() {
      Replied? ==> completion.Valid()
    }
  }

  // How a run came back to its caller: with the outcome it committed, or because
  // somebody else had moved the task when it tried to commit, or between steps.
  datatype Ending = Settled | Discarded | Abandoned

  datatype RunResult = RunResult(
    task: AgentTask,
    output: string,
    detail: Reason,
    steps: nat,
    toolCalls: nat,
    usage: TokenUsage,
    pendingCalls: seq<ToolCall>)

  // A run that committed its outcome, as its caller sees it.
  function Settling(task: AgentTask, run: Run, reason: Reason, output: string,
                    checkpoint: Option<RunCheckpoint>): RunResult {
    RunResult(task, output, reason, run.steps, run.toolCalls, run.usage,
              if checkpoint.Some? then checkpoint.value.PendingCalls() else [])
  }

  // What the loop does next once the model has replied.
  datatype Decision =
    | Settle(status: TaskStatus, reason: Reason, output: string, checkpoint: Option<RunCheckpoint>)
    | Execute(calls: seq<ToolCall>)

  function Opening(goal: string): Message {
    Message(User, "Task goal:\n" + goal, [], [])
  }

  function FreshRun(goal: string): Run {
    Run([Opening(goal)], 0, 0, NO_USAGE)
  }

  function Resuming(checkpoint: RunCheckpoint): Run {
    Run(checkpoint.messages, checkpoint.steps, checkpoint.toolCalls, checkpoint.usage)
  }

  function Conclusion(cfg: Config, completion: Completion): Decision {
    match completion.stopReason
    case MaxTokens => Settle(Failed, AnswerTruncated(cfg.maxTokens), "", None)
    case Refusal => Settle(Failed, ModelRefused, "", None)
    case _ => Settle(Completed, RunCompleted, completion.text, None)
  }

  function AfterReply(cfg: Config, run: Run, reply: ModelReply): (Run, Decision) {
    match reply
    case CallFailed(errorType) => (run, Settle(Failed, ModelCallFailed(errorType), "", None))
    case Replied(completion) =>
      var recorded := run.(usage := run.usage.Plus(completion.usage));
      if completion.stopReason != ToolUse then
        (recorded, Conclusion(cfg, completion))
      else
        var turned := recorded.(messages := run.messages + [Message.FromCompletion(completion)]);
        if cfg.TripsTheGate(completion.toolCalls) then
          (turned, Settle(AwaitingApproval, ApprovalRequired(cfg.NamesToApprove(completion.toolCalls)),
                          completion.text, Some(turned.Checkpoint())))
        else
          (turned, Execute(completion.toolCalls))
  }

  function AfterResults(run: Run, results: seq<ToolResult>): Run {
    run.(toolCalls := run.toolCalls + |results|, messages := run.messages + [Message.WithToolResults(results)])
  }

  // What a human is shown of a held call; no risk if the tool is not registered.
  datatype PendingToolCall = PendingToolCall(call: ToolCall, risk: Option<RiskLevel>, needsApproval: bool)

  // pending_approval
  function PendingApproval(cfg: Config, task: AgentTask): seq<PendingToolCall> {
    var calls := if task.checkpoint.Some? then task.checkpoint.value.PendingCalls() else [];
    seq(|calls|, i requires 0 <= i < |calls| =>
        PendingToolCall(calls[i],
                        if calls[i].name in cfg.tools then Some(cfg.tools[calls[i].name].risk) else None,
                        cfg.NeedsApproval(calls[i])))
  }

  // --- The shape of a run at the three points of the loop --------------------------

  // At the loop head: everything said so far is answered and counted.
  predicate AtLoopHead(cfg: Config, run: Run) {
    && Conversation(run.messages)
    && |run.messages| == 2 * run.steps + 1
    && run.toolCalls == AnsweredCalls(run.messages)
    && run.steps <= cfg.maxSteps
  }

  // A step has been spent and the model has not replied yet.
  predicate AskingTheModel(cfg: Config, run: Run) {
    run.steps >= 1 && AtLoopHead(cfg, run.(steps := run.steps - 1)) && run.steps <= cfg.maxSteps
  }

  // The model's tool-calling turn is the last message and nothing answered it.
  predicate OnToolTurn(cfg: Config, run: Run) {
    && PausedConversation(run.messages)
    && |run.messages| == 2 * run.steps
    && run.toolCalls == AnsweredCalls(run.messages[..|run.messages| - 1])
    && 1 <= run.steps <= cfg.maxSteps
  }

  // A checkpoint a run can be continued from.
  predicate Resumable(cfg: Config, checkpoint: RunCheckpoint) {
    && checkpoint.Valid()
    && OnToolTurn(cfg, Resuming(checkpoint))
    && cfg.TripsTheGate(checkpoint.PendingCalls())
  }

  lemma FreshRunIsAtTheHead(cfg: Config, goal: string)
    ensures AtLoopHead(cfg, FreshRun(goal))
  {}

  // Whatever the model replies, the run either settles on a final status, pauses
  // with a checkpoint it can be continued from, or stands on a tool turn none of
  // whose calls needs a human. Messages are only ever appended.
  lemma ReplyKeepsTheRunInShape(cfg: Config, run: Run, reply: ModelReply)
    requires AskingTheModel(cfg, run)
    requires reply.Valid()
    ensures var (next, decision) := AfterReply(cfg, run, reply);
            && run.messages <= next.messages
            && next.steps == run.steps && next.toolCalls == run.toolCalls
            && next.usage == (if reply.Replied? then run.usage.Plus(reply.completion.usage) else run.usage)
            && match decision
               case Execute(calls) =>
                 && OnToolTurn(cfg, next)
                 && calls == next.messages[|next.messages| - 1].toolCalls
                 && !cfg.TripsTheGate(calls)
               case Settle(status, reason, output, checkpoint) =>
                 && (status == Failed || status == Completed || status == AwaitingApproval)
                 && !reason.ApprovedBy?
                 && (checkpoint.Some? <==> status == AwaitingApproval)
                 && (checkpoint.Some? ==>
                       && Resumable(cfg, checkpoint.value)
                       && Resuming(checkpoint.value) == next
                       && reason == ApprovalRequired(cfg.NamesToApprove(checkpoint.value.PendingCalls())))
  {
    if reply.Replied? && reply.completion.stopReason == ToolUse {
      var turn := Message.FromCompletion(reply.completion);
      var all := run.messages + [turn];
      assert all[..|all| - 1] == run.messages;
      assert turn.Valid();
    }
  }

  // A run completes on a plain answer and on nothing else; it pauses or goes on
  // only on a tool turn; and text is reported only for an answer or a pause.
  lemma WhatAReplyDecides(cfg: Config, run: Run, reply: ModelReply)
    ensures var decision := AfterReply(cfg, run, reply).1;
            var answered := reply.Replied? && reply.completion.stopReason in {EndTurn, StopSequence};
            var calling := reply.Replied? && reply.completion.stopReason == ToolUse;
            && (decision.Execute? <==> calling && !cfg.TripsTheGate(reply.completion.toolCalls))
            && (decision.Execute? ==> decision.calls == reply.completion.toolCalls)
            && (decision.Settle? ==>
                  && (decision.status == Completed <==> answered)
                  && (decision.status == AwaitingApproval <==> calling)
                  && (decision.status == Failed <==> !answered && !calling)
                  && decision.output == (if answered || calling then reply.completion.text else "")
                  && (answered ==> decision.reason == RunCompleted)
                  && (calling ==> decision.reason == ApprovalRequired(cfg.NamesToApprove(reply.completion.toolCalls)))
                  && (reply.CallFailed? ==> decision.reason == ModelCallFailed(reply.errorType))
                  && (reply.Replied? && reply.completion.stopReason == MaxTokens ==>
                        decision.reason == AnswerTruncated(cfg.maxTokens))
                  && (reply.Replied? && reply.completion.stopReason == Refusal ==> decision.reason == ModelRefused))
  {
    if reply.Replied? {
      match reply.completion.stopReason
      case EndTurn =>
      case _ =>
    }
  }

  // Answering the turn call by call brings the run back to the loop head.
  lemma ResultsKeepTheRunInShape(cfg: Config, run: Run, results: seq<ToolResult>)
    requires OnToolTurn(cfg, run)
    requires Answers(run.messages[|run.messages| - 1].toolCalls, results)
    ensures AtLoopHead(cfg, AfterResults(run, results))
    ensures AfterResults(run, results).steps >= 1
  {
    AnsweringAPause(run.messages, results);
  }

  // A tool is above the threshold in exactly these cases.
  predicate Above(risk: RiskLevel, threshold: RiskLevel) {
    (risk == Critical && threshold != Critical) || (risk == Write && threshold == Read)
  }

  // The view of a paused task and the pause judge every held call alike: it shows
  // the registered tool's own risk, or none for a tool nobody knows, and marks for
  // approval the known tools above the threshold.
  lemma TheViewShowsTheWholeTurn(cfg: Config, task: AgentTask)
    requires task.checkpoint.Some? && cfg.TripsTheGate(task.checkpoint.value.PendingCalls())
    ensures var calls, shown := task.checkpoint.value.PendingCalls(), PendingApproval(cfg, task);
            && |shown| == |calls|
            && (forall i | 0 <= i < |shown| :: shown[i].call == calls[i])
            && (exists i | 0 <= i < |shown| :: shown[i].needsApproval)
            && (forall i | 0 <= i < |shown| ::
                  && (shown[i].risk.Some? <==> calls[i].name in cfg.tools)
                  && (shown[i].risk.Some? ==> shown[i].risk.value == cfg.tools[calls[i].name].risk)
                  && (shown[i].needsApproval
                      <==> shown[i].risk.Some? && Above(shown[i].risk.value, cfg.autoApproveUpTo)))
            && (set i | 0 <= i < |shown| && shown[i].needsApproval :: shown[i].call.name) == cfg.NamesToApprove(calls)
  {
    var calls, shown := task.checkpoint.value.PendingCalls(), PendingApproval(cfg, task);
    assert forall i | 0 <= i < |calls| :: shown[i].needsApproval <==> cfg.NeedsApproval(calls[i]);
    var i :| 0 <= i < |calls| && cfg.NeedsApproval(calls[i]);
    assert shown[i].needsApproval;
  }

  // Nothing the loop builds can fail a validator: every request it sends is a
  // well-formed conversation of alternating turns answered call by call.
  lemma RequestsAreWellFormed(cfg: Config, run: Run)
    requires AskingTheModel(cfg, run)
    ensures ValidRequest(run.messages) && WellFormedTurns(run.messages)
  {
    ConversationTurns(run.messages);
  }
}
