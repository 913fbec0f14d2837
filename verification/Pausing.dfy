/** Approval pauses are transparent: a run that is paused and approved any number
    of times does what it would have done had nothing needed approval. */
module Pausing {
  import opened Wrappers
  import opened Messages
  import opened Tasks
  import opened Repository
  import opened Registry
  import opened RunLogic
  import opened RunSemantics

  // The same service with every tool below the approval threshold.
  function Ungated(cfg: Config): Config {
    cfg.(autoApproveUpTo := Critical)
  }

  datatype Approval = Approval(approver: string, note: Option<string>)

  // Approvals arriving one after another; one that finds nothing paused is refused
  // and changes nothing.
  function ApprovedThrough<W(!new)>(cfg: Config, env: Environment<W>, s: Sys<W>, id: TaskId, result: RunResult,
                              approvals: seq<Approval>)
    : (Sys<W>, RunResult)
    requires Keyed(s.tasks)
    decreases |approvals|
  {
    if approvals == [] then
      (s, result)
    else
      var (next, outcome) := Approving(cfg, env, s, id, approvals[0].approver, approvals[0].note);
      if outcome.Failure? then
        ApprovedThrough(cfg, env, s, id, result, approvals[1..])
      else
        ApprovingKeepsKeys(cfg, env, s, id, approvals[0].approver, approvals[0].note);
        ApprovedThrough(cfg, env, next, id, outcome.value, approvals[1..])
  }

  // A history without its pauses and approvals, and without its clock readings.
  function Skeleton(history: seq<StatusTransition>): seq<(TaskStatus, TaskStatus, Reason)> {
    if history == [] then []
    else
      var last := history[|history| - 1];
      Skeleton(history[..|history| - 1])
      + if last.fromStatus == AwaitingApproval || last.toStatus == AwaitingApproval then []
        else [(last.fromStatus, last.toStatus, last.reason)]
  }

  lemma SkeletonGrows(history: seq<StatusTransition>, record: StatusTransition)
    ensures Skeleton(history + [record])
            == Skeleton(history)
               + if record.fromStatus == AwaitingApproval || record.toStatus == AwaitingApproval then []
                 else [(record.fromStatus, record.toStatus, record.reason)]
  {
    assert (history + [record])[..|history|] == history;
  }

  // A history that never paused is its own skeleton.
  lemma {:induction false} SkeletonOfUnpaused(history: seq<StatusTransition>)
    requires forall i | 0 <= i < |history| ::
               history[i].fromStatus != AwaitingApproval && history[i].toStatus != AwaitingApproval
    ensures |Skeleton(history)| == |history|
    ensures forall i | 0 <= i < |history| ::
              Skeleton(history)[i] == (history[i].fromStatus, history[i].toStatus, history[i].reason)
  {
    if history != [] {
      SkeletonOfUnpaused(history[..|history| - 1]);
    }
  }

  // One history is the other without its pauses and approvals, clock readings aside.
  ghost predicate PausesDeleted(history: seq<StatusTransition>, plain: seq<StatusTransition>) {
    && |Skeleton(history)| == |plain|
    && forall i | 0 <= i < |plain| :: Skeleton(history)[i] == (plain[i].fromStatus, plain[i].toStatus, plain[i].reason)
  }

  // Two runs of one task that have done the same to the world.
  ghost predicate Alike<W(!new)>(s: Sys<W>, u: Sys<W>, id: TaskId) {
    && Keyed(s.tasks) && Keyed(u.tasks)
    && id in s.tasks && id in u.tasks
    && s.world == u.world && s.batches == u.batches && s.requests == u.requests
    && s.tasks[id].goal == u.tasks[id].goal
    && s.tasks[id].status == u.tasks[id].status
    && Skeleton(s.tasks[id].history) == Skeleton(u.tasks[id].history)
    && u.tasks[id].status != AwaitingApproval
    && (forall i | 0 <= i < |u.tasks[id].history| ::
          u.tasks[id].history[i].fromStatus != AwaitingApproval && u.tasks[id].history[i].toStatus != AwaitingApproval)
  }

  // What two callers cannot tell apart.
  ghost predicate SameOutcome<W(!new)>(s: Sys<W>, r: RunResult, u: Sys<W>, q: RunResult, id: TaskId) {
    && Alike(s, u, id)
    && r.task == s.tasks[id] && q.task == u.tasks[id]
    && r.task.status == q.task.status
    && r.output == q.output && r.detail == q.detail
    && r.steps == q.steps && r.toolCalls == q.toolCalls && r.usage == q.usage
    && r.pendingCalls == q.pendingCalls
  }

  // --- The pieces --------------------------------------------------------------------

  lemma FinishingAlike<W(!new)>(s: Sys<W>, u: Sys<W>, id: TaskId, run: Run, status: TaskStatus, reason: Reason,
                                output: string)
    requires Alike(s, u, id) && s.tasks[id].status == Running
    requires status == Failed || status == Completed
    ensures var (a, r) := Finishing(s, id, run, status, reason, output, None);
            var (b, q) := Finishing(u, id, run, status, reason, output, None);
            SameOutcome(a, r, b, q, id) && r.task.status == status
  {
    SkeletonGrows(s.tasks[id].history, StatusTransition(Running, status, s.clock, reason));
    SkeletonGrows(u.tasks[id].history, StatusTransition(Running, status, u.clock, reason));
  }

  lemma AnsweringAlike<W(!new)>(cfg: Config, env: Environment<W>, s: Sys<W>, u: Sys<W>, id: TaskId, run: Run,
                                calls: seq<ToolCall>)
    requires Undisturbed(env) && Alike(s, u, id)
    ensures var (a, answered) := Answering(cfg, env, s, id, run, calls);
            var (b, same) := Answering(Ungated(cfg), env, u, id, run, calls);
            && Alike(a, b, id) && answered == same
            && a.tasks == s.tasks && b.tasks == u.tasks
  {
    assert env.cancelled(env.act(s.world, calls).0).None?;
  }

  // With nothing paused, approvals are refused.
  lemma {:induction false} NothingToApprove<W(!new)>(
      cfg: Config, env: Environment<W>, s: Sys<W>, id: TaskId, result: RunResult, approvals: seq<Approval>)
    requires Keyed(s.tasks) && (id in s.tasks ==> s.tasks[id].status != AwaitingApproval)
    ensures ApprovedThrough(cfg, env, s, id, result, approvals) == (s, result)
    decreases |approvals|
  {
    if approvals != [] {
      NothingToApprove(cfg, env, s, id, result, approvals[1..]);
    }
  }

  // A gated pause followed by its approval leaves the task where an ungated run
  // has it, but for two records of its history.
  lemma PauseThenApprove<W(!new)>(cfg: Config, env: Environment<W>, s: Sys<W>, u: Sys<W>, id: TaskId, run: Run,
                                  reason: Reason, output: string, approval: Approval)
    requires Alike(s, u, id) && s.tasks[id].status == Running
    ensures var (paused, r) := Finishing(s, id, run, AwaitingApproval, reason, output, Some(run.Checkpoint()));
            var moved := Transitioned(paused, id, Running, ApprovedBy(approval.approver, approval.note), None,
                                      Some(paused.tasks[id].version));
            && r.task == paused.tasks[id] && r.task.status == AwaitingApproval
            && Keyed(paused.tasks)
            && moved.Success?
            && Alike(paused.Committing(moved), u, id)
            && Approving(cfg, env, paused, id, approval.approver, approval.note)
               == (var (ended, result) := Continuing(cfg, env, paused.Committing(moved), id, run.Checkpoint());
                   (ended, Success(result)))
  {
    var history := s.tasks[id].history;
    var pause := StatusTransition(Running, AwaitingApproval, s.clock, reason);
    var reasonGiven := ApprovedBy(approval.approver, approval.note);
    var approve := StatusTransition(AwaitingApproval, Running, s.clock + 1, reasonGiven);
    SkeletonGrows(history, pause);
    SkeletonGrows(history + [pause], approve);
  }

  lemma UngatedNeverPauses(cfg: Config, calls: seq<ToolCall>)
    ensures !Ungated(cfg).TripsTheGate(calls)
  {}

  // Asking the model and judging its reply, gated and not: the same, except that a
  // gated run may pause where the ungated one goes on to execute the same calls.
  lemma RepliesAlike(cfg: Config, run: Run, reply: ModelReply)
    ensures var (next, decision) := AfterReply(cfg, run, reply);
            var (same, other) := AfterReply(Ungated(cfg), run, reply);
            && next == same && next.steps == run.steps
            && (decision == other
                || (decision.Settle? && decision.status == AwaitingApproval
                    && decision.checkpoint == Some(next.Checkpoint())
                    && other == Execute(next.Checkpoint().PendingCalls())))
            && (other.Settle? ==> (other.status == Failed || other.status == Completed) && other.checkpoint.None?)
  {
    if reply.Replied? {
      UngatedNeverPauses(cfg, reply.completion.toolCalls);
    }
  }

  // --- The simulation ------------------------------------------------------------------

  // What is left of a gated run: the drive, and the approvals still to come.
  function Gated<W(!new)>(cfg: Config, env: Environment<W>, driven: (Sys<W>, RunResult), id: TaskId,
                          approvals: seq<Approval>)
    : (Sys<W>, RunResult)
    requires Keyed(driven.0.tasks)
  {
    ApprovedThrough(cfg, env, driven.0, id, driven.1, approvals)
  }

  lemma {:induction false} PausesChangeNothing<W(!new)>(
      cfg: Config, env: Environment<W>, s: Sys<W>, u: Sys<W>, id: TaskId, run: Run, approvals: seq<Approval>)
    requires Undisturbed(env) && Alike(s, u, id) && s.tasks[id].status == Running
    requires Keyed(Driving(cfg, env, s, id, run).0.tasks)
    requires Gated(cfg, env, Driving(cfg, env, s, id, run), id, approvals).1.task.status != AwaitingApproval
    ensures var (a, r) := Gated(cfg, env, Driving(cfg, env, s, id, run), id, approvals);
            var (b, q) := Driving(Ungated(cfg), env, u, id, run);
            SameOutcome(a, r, b, q, id)
    decreases if run.steps < cfg.maxSteps then cfg.maxSteps - run.steps else 0
  {
    if run.steps >= cfg.maxSteps {
      FinishingAlike(s, u, id, run, Failed, BudgetExhausted(cfg.maxSteps), "");
      var (a, r) := Driving(cfg, env, s, id, run);
      NothingToApprove(cfg, env, a, id, r, approvals);
    } else {
      var (asked, reply) := AfterAsking(env, s, id, run.messages);
      var (asked', reply') := AfterAsking(env, u, id, run.messages);
      assert env.cancelled(env.ask(s.world, run.messages).0).None?;
      assert reply == reply' && Alike(asked, asked', id) && asked.tasks == s.tasks;
      RepliesAlike(cfg, run.(steps := run.steps + 1), reply);
      DecisionsChangeNothing(cfg, env, asked, asked', id, run, reply, approvals);
    }
  }

  lemma {:induction false} DecisionsChangeNothing<W(!new)>(
      cfg: Config, env: Environment<W>, s: Sys<W>, u: Sys<W>, id: TaskId, run: Run, reply: ModelReply,
      approvals: seq<Approval>)
    requires Undisturbed(env) && Alike(s, u, id) && s.tasks[id].status == Running
    requires run.steps < cfg.maxSteps
    requires var (next, decision) := AfterReply(cfg, run.(steps := run.steps + 1), reply);
             var driven := AfterDeciding(cfg, env, s, id, next, decision);
             Keyed(driven.0.tasks) && Gated(cfg, env, driven, id, approvals).1.task.status != AwaitingApproval
    ensures var (next, decision) := AfterReply(cfg, run.(steps := run.steps + 1), reply);
            var (same, other) := AfterReply(Ungated(cfg), run.(steps := run.steps + 1), reply);
            var (a, r) := Gated(cfg, env, AfterDeciding(cfg, env, s, id, next, decision), id, approvals);
            var (b, q) := AfterDeciding(Ungated(cfg), env, u, id, same, other);
            SameOutcome(a, r, b, q, id)
    decreases (if run.steps < cfg.maxSteps then cfg.maxSteps - run.steps else 0), 0
  {
    var (next, decision) := AfterReply(cfg, run.(steps := run.steps + 1), reply);
    var (same, other) := AfterReply(Ungated(cfg), run.(steps := run.steps + 1), reply);
    RepliesAlike(cfg, run.(steps := run.steps + 1), reply);
    if other.Settle? {
      FinishingAlike(s, u, id, next, other.status, other.reason, other.output);
      var (a, r) := AfterDeciding(cfg, env, s, id, next, decision);
      NothingToApprove(cfg, env, a, id, r, approvals);
    } else if decision.Execute? {
      AnsweringAlike(cfg, env, s, u, id, next, other.calls);
      var (acted, answered) := Answering(cfg, env, s, id, next, other.calls);
      var (acted', _) := Answering(Ungated(cfg), env, u, id, next, other.calls);
      PausesChangeNothing(cfg, env, acted, acted', id, answered, approvals);
    } else {
      ApprovalGoesOn(cfg, env, s, u, id, run, next, decision, other, approvals);
    }
  }

  lemma {:induction false} ApprovalGoesOn<W(!new)>(
      cfg: Config, env: Environment<W>, s: Sys<W>, u: Sys<W>, id: TaskId, run: Run, next: Run,
      decision: Decision, other: Decision, approvals: seq<Approval>)
    requires Undisturbed(env) && Alike(s, u, id) && s.tasks[id].status == Running
    requires run.steps < cfg.maxSteps && next.steps == run.steps + 1
    requires decision.Settle? && decision.status == AwaitingApproval && decision.checkpoint == Some(next.Checkpoint())
    requires other == Execute(next.Checkpoint().PendingCalls())
    requires var driven := AfterDeciding(cfg, env, s, id, next, decision);
             Keyed(driven.0.tasks) && Gated(cfg, env, driven, id, approvals).1.task.status != AwaitingApproval
    ensures var (a, r) := Gated(cfg, env, AfterDeciding(cfg, env, s, id, next, decision), id, approvals);
            var (b, q) := AfterDeciding(Ungated(cfg), env, u, id, next, other);
            SameOutcome(a, r, b, q, id)
    decreases (if run.steps < cfg.maxSteps then cfg.maxSteps - run.steps else 0), 0, 0
  {
    var (paused, r) := AfterDeciding(cfg, env, s, id, next, decision);
    if approvals != [] {
      var approval := approvals[0];
      PauseThenApprove(cfg, env, s, u, id, next, decision.reason, decision.output, approval);
      var moved := Transitioned(paused, id, Running, ApprovedBy(approval.approver, approval.note), None,
                                Some(paused.tasks[id].version));
      var resumed := paused.Committing(moved);
      AnsweringAlike(cfg, env, resumed, u, id, next, other.calls);
      var (acted, answered) := Answering(cfg, env, resumed, id, next, other.calls);
      var (acted', _) := Answering(Ungated(cfg), env, u, id, next, other.calls);
      DrivingKeepsKeys(cfg, env, acted, id, answered);
      PausesChangeNothing(cfg, env, acted, acted', id, answered, approvals[1..]);
    }
  }

  // A run started, paused and approved any number of times until it ends does what
  // the same run does when nothing needs approval: same status, output, detail,
  // counters and usage, the same batches in the same order on the same world, and
  // the same history once pauses and approvals are deleted from it.
  lemma PausingIsTransparent<W(!new)>(
      cfg: Config, env: Environment<W>, s: Sys<W>, id: TaskId, approvals: seq<Approval>)
    requires Undisturbed(env) && Keyed(s.tasks)
    requires id in s.tasks && s.tasks[id].status == Pending && s.tasks[id].history == []
    ensures var (started, first) := Starting(cfg, env, s, id);
            var (ungated, plain) := Starting(Ungated(cfg), env, s, id);
            && first.Success? && plain.Success? && Keyed(started.tasks)
            && var (ended, last) := ApprovedThrough(cfg, env, started, id, first.value, approvals);
               last.task.status != AwaitingApproval ==>
                 && SameOutcome(ended, last, ungated, plain.value, id)
                 && PausesDeleted(ended.tasks[id].history, ungated.tasks[id].history)
  {
    var r := Transitioned(s, id, Running, RunStarted, None, None);
    var running := s.Committing(r);
    DrivingKeepsKeys(cfg, env, running, id, FreshRun(r.value.goal));
    var driven := Driving(cfg, env, running, id, FreshRun(r.value.goal));
    if Gated(cfg, env, driven, id, approvals).1.task.status != AwaitingApproval {
      PausesChangeNothing(cfg, env, running, running, id, FreshRun(r.value.goal), approvals);
      SkeletonOfUnpaused(Starting(Ungated(cfg), env, s, id).0.tasks[id].history);
    }
  }

  // Approvals cannot keep a run going: whoever cancels meanwhile, once there have
  // been as many as the budget has steps, it is no longer waiting for another.
  lemma {:induction false} ApprovalsRunOut<W(!new)>(
      cfg: Config, env: Environment<W>, s: Sys<W>, id: TaskId, result: RunResult, approvals: seq<Approval>)
    requires Keyed(s.tasks) && id in s.tasks && result.task == s.tasks[id]
    requires s.tasks[id].status == AwaitingApproval ==>
               && s.tasks[id].checkpoint.Some?
               && s.tasks[id].checkpoint.value.steps <= cfg.maxSteps
               && |approvals| + s.tasks[id].checkpoint.value.steps > cfg.maxSteps
    ensures ApprovedThrough(cfg, env, s, id, result, approvals).1.task.status != AwaitingApproval
    decreases |approvals|
  {
    if s.tasks[id].status != AwaitingApproval {
      NothingToApprove(cfg, env, s, id, result, approvals);
    } else {
      var paused, checkpoint := s.tasks[id], s.tasks[id].checkpoint.value;
      var (approver, note) := (approvals[0].approver, approvals[0].note);
      var r := Transitioned(s, id, Running, ApprovedBy(approver, note), None, Some(paused.version));
      var calls := checkpoint.PendingCalls();
      var (acted, answered) := Answering(cfg, env, s.Committing(r), id, Resuming(checkpoint), calls);
      PausingSpendsAStep(cfg, env, acted, id, answered);
      var (next, outcome) := Approving(cfg, env, s, id, approver, note);
      ApprovingKeepsKeys(cfg, env, s, id, approver, note);
      ApprovalsRunOut(cfg, env, next, id, outcome.value, approvals[1..]);
    }
  }

  lemma EnoughApprovalsEndTheRun<W(!new)>(
      cfg: Config, env: Environment<W>, s: Sys<W>, id: TaskId, approvals: seq<Approval>)
    requires Keyed(s.tasks) && id in s.tasks && s.tasks[id].status == Pending
    requires |approvals| >= cfg.maxSteps
    ensures var (started, first) := Starting(cfg, env, s, id);
            && first.Success? && Keyed(started.tasks)
            && ApprovedThrough(cfg, env, started, id, first.value, approvals).1.task.status != AwaitingApproval
  {
    var r := Transitioned(s, id, Running, RunStarted, None, None);
    var running := s.Committing(r);
    DrivingKeepsKeys(cfg, env, running, id, FreshRun(r.value.goal));
    PausingSpendsAStep(cfg, env, running, id, FreshRun(r.value.goal));
    var (started, first) := Driving(cfg, env, running, id, FreshRun(r.value.goal));
    ApprovalsRunOut(cfg, env, started, id, first, approvals);
  }
}
