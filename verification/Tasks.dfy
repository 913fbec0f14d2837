/** The task entity and its lifecycle (src/enterprise_agent_platform/tasks/models.py). */
module Tasks {
  import opened Wrappers
  import opened Messages

  type TaskId = nat

  datatype TaskStatus = Pending | Running | AwaitingApproval | Completed | Failed | Cancelled

  // ALLOWED_TRANSITIONS
  function Allowed(status: TaskStatus): set<TaskStatus> {
    match status
    case Pending => {Running, Cancelled}
    case Running => {AwaitingApproval, Completed, Failed, Cancelled}
    case AwaitingApproval => {Running, Cancelled}
    case Completed => {}
    case Failed => {}
    case Cancelled => {}
  }

  predicate Terminal(status: TaskStatus) {
    Allowed(status) == {}
  }

  // The table by where its edges lead: nothing is pending again; a task starts or
  // resumes from pending or a pause; what a run comes to, it comes to from running;
  // and whatever is not decided can be cancelled.
  lemma TheTableByTargets(from: TaskStatus, to: TaskStatus)
    ensures to in Allowed(from)
            <==> match to
                 case Pending => false
                 case Running => from == Pending || from == AwaitingApproval
                 case AwaitingApproval => from == Running
                 case Completed => from == Running
                 case Failed => from == Running
                 case Cancelled => !Terminal(from)
    ensures Terminal(from) <==> from == Completed || from == Failed || from == Cancelled
  {
    assert Running in Allowed(Pending) && Failed in Allowed(Running) && Running in Allowed(AwaitingApproval);
  }

  // The texts the actors record, kept structured instead of rendered.
  datatype Reason =
    | RunStarted
    | ApprovedBy(approver: string, note: Option<string>)
    | RejectedBy(rejecter: string, why: Option<string>)
    | CancelledBy(canceller: string, why: Option<string>)
    | ModelCallFailed(errorType: string)
    | BudgetExhausted(maxSteps: nat)
    | AnswerTruncated(maxTokens: nat)
    | ModelRefused
    | RunCompleted
    | ApprovalRequired(names: set<string>)
    | RunStopped(status: TaskStatus)

  datatype StatusTransition = StatusTransition(fromStatus: TaskStatus, toStatus: TaskStatus, at: int, reason: Reason)

  datatype RunCheckpoint = RunCheckpoint(messages: seq<Message>, steps: nat, toolCalls: nat, usage: TokenUsage) {
    // The field rules and RunCheckpoint._ends_on_the_paused_turn.
    predicate Valid() {
      && messages != []
      && steps >= 1
      && messages[|messages| - 1].role == Assistant
      && messages[|messages| - 1].toolCalls != []
    }

    function PendingCalls(): seq<ToolCall> {
      if messages == [] then [] else messages[|messages| - 1].toolCalls
    }
  }

  datatype Error =
    | TaskNotFound(id: TaskId)
    | AlreadyExists(id: TaskId)
    | InvalidTransition(current: TaskStatus, target: TaskStatus)
    | ConcurrentUpdate(id: TaskId, expected: nat, actual: nat)
    | CheckpointMisplaced(status: TaskStatus)
    | NotResumable(id: TaskId)
    | Forbidden(id: TaskId)

  // _check_checkpoint
  predicate CheckpointFits(status: TaskStatus, checkpoint: Option<RunCheckpoint>) {
    checkpoint.Some? ==> status == AwaitingApproval
  }

  datatype AgentTask = AgentTask(
    id: TaskId,
    goal: string,
    requestedBy: string,
    status: TaskStatus,
    version: nat,
    createdAt: int,
    updatedAt: int,
    history: seq<StatusTransition>,
    checkpoint: Option<RunCheckpoint>)
  {
    static function Create(id: TaskId, goal: string, requestedBy: string, now: int): AgentTask {
      AgentTask(id, goal, requestedBy, Pending, 1, now, now, [], None)
    }

    function Moved(target: TaskStatus, reason: Reason, checkpoint: Option<RunCheckpoint>, now: int): AgentTask {
      this.(status := target,
            version := version + 1,
            updatedAt := now,
            history := history + [StatusTransition(status, target, now, reason)],
            checkpoint := checkpoint)
    }

    function TransitionTo(target: TaskStatus, reason: Reason, checkpoint: Option<RunCheckpoint>, now: int)
      : Result<AgentTask, Error>
    {
      if target !in Allowed(status) then Failure(InvalidTransition(status, target))
      else if !CheckpointFits(target, checkpoint) then Failure(CheckpointMisplaced(target))
      else Success(Moved(target, reason, checkpoint, now))
    }

    // The columns no transition rewrites.
    predicate SameIdentity(other: AgentTask) {
      id == other.id && goal == other.goal && requestedBy == other.requestedBy && createdAt == other.createdAt
    }
  }

  // --- Histories ---------------------------------------------------------------

  // A history is a path in the lifecycle table from `pending` to `status`.
  predicate LifecyclePath(history: seq<StatusTransition>, status: TaskStatus) {
    if history == [] then
      status == Pending
    else
      var last := history[|history| - 1];
      last.toStatus == status && status in Allowed(last.fromStatus)
      && LifecyclePath(history[..|history| - 1], last.fromStatus)
  }

  predicate WellFormedTask(t: AgentTask) {
    && LifecyclePath(t.history, t.status)
    && t.version == 1 + |t.history|
    && CheckpointFits(t.status, t.checkpoint)
  }

  // Read edge by edge: it starts at `pending`, each edge is in the table, each
  // edge leaves the status the previous one reached, and it ends at `status`.
  lemma {:induction false} PathIsContiguous(history: seq<StatusTransition>, status: TaskStatus)
    requires LifecyclePath(history, status)
    ensures history == [] ==> status == Pending
    ensures history != [] ==> history[0].fromStatus == Pending && history[|history| - 1].toStatus == status
    ensures forall i | 0 <= i < |history| :: history[i].toStatus in Allowed(history[i].fromStatus)
    ensures forall i | 0 < i < |history| :: history[i - 1].toStatus == history[i].fromStatus
  {
    if history != [] {
      var front := history[..|history| - 1];
      PathIsContiguous(front, history[|history| - 1].fromStatus);
      forall i | 0 <= i < |history|
        ensures history[i].toStatus in Allowed(history[i].fromStatus)
        ensures 0 < i ==> history[i - 1].toStatus == history[i].fromStatus
      {
        if i < |front| {
          assert history[i] == front[i];
        }
        if 0 < i {
          assert history[i - 1] == front[i - 1];
        }
      }
    }
  }

  // Only a task that has not been decided can move, and moving keeps it well formed.
  lemma TransitionKeepsTheTaskWellFormed(
      t: AgentTask, target: TaskStatus, reason: Reason, checkpoint: Option<RunCheckpoint>, now: int)
    requires WellFormedTask(t)
    ensures var r := t.TransitionTo(target, reason, checkpoint, now);
            && (r.Success? <==> target in Allowed(t.status) && CheckpointFits(target, checkpoint))
            && (r.Success? ==> WellFormedTask(r.value) && r.value.SameIdentity(t) && t.history < r.value.history)
            && (r.Success? ==>
                  && r.value.status == target && r.value.version == t.version + 1
                  && r.value.checkpoint == checkpoint && r.value.updatedAt == now
                  && |r.value.history| == |t.history| + 1
                  && r.value.history[|t.history|] == StatusTransition(t.status, target, now, reason))
            && (target !in Allowed(t.status) ==> r == Failure(InvalidTransition(t.status, target)))
            && (target in Allowed(t.status) && !CheckpointFits(target, checkpoint) ==>
                  r == Failure(CheckpointMisplaced(target)))
            && (Terminal(t.status) ==> r == Failure(InvalidTransition(t.status, target)))
  {
    var moved := t.Moved(target, reason, checkpoint, now);
    assert moved.history[..|moved.history| - 1] == t.history;
  }
}
