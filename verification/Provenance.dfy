/** Where everything on record comes from: every task from the one request that made
    it, every name and reason in its history from somebody who asked for that. */
module Provenance {
  import opened Wrappers
  import opened Messages
  import opened Tasks
  import opened RunLogic
  import opened Protocol
  import opened ProtocolInvariant
  import opened ProtocolTheorems

  // --- What was asked for -------------------------------------------------------------------------

  // Somebody made this request on this task.
  ghost predicate Requested(past: seq<Move>, id: TaskId, p: Process) {
    exists i | 0 <= i < |past| :: past[i].Spawn? && past[i].id == id && past[i].process == p
  }

  // Some step read the clock so.
  ghost predicate ClockRead(past: seq<Move>, now: int) {
    exists i | 0 <= i < |past| :: past[i].Act? && past[i].input == Go(now)
  }

  // The edge of the lifecycle each reason is for.
  predicate ReasonFits(cfg: Config, reason: Reason, from: TaskStatus, to: TaskStatus) {
    match reason
    case RunStarted => (from == Pending || from == AwaitingApproval) && to == Running
    case ApprovedBy(_, _) => from == AwaitingApproval && to == Running
    case RejectedBy(_, _) => from == AwaitingApproval && to == Cancelled
    case CancelledBy(_, _) => to == Cancelled
    case ModelCallFailed(_) => from == Running && to == Failed
    case BudgetExhausted(n) => from == Running && to == Failed && n == cfg.maxSteps
    case AnswerTruncated(n) => from == Running && to == Failed && n == cfg.maxTokens
    case ModelRefused => from == Running && to == Failed
    case RunCompleted => from == Running && to == Completed
    case ApprovalRequired(_) => from == Running && to == AwaitingApproval
    case RunStopped(_) => false
  }

  // Who a reason names asked for it, in the words recorded; the rest are a run's own.
  ghost predicate ReasonWasGiven(past: seq<Move>, id: TaskId, reason: Reason) {
    match reason
    case RunStarted => Requested(past, id, Loading(Start))
    case ApprovedBy(approver, note) => Requested(past, id, CheckingPolicy(approver, note))
    case RejectedBy(rejecter, why) => Requested(past, id, FindingPaused(RejectRequest(rejecter, why)))
    case CancelledBy(canceller, why) => Requested(past, id, Loading(Cancel(canceller, why)))
    case _ => true
  }

  ghost predicate RecordIsTraced(cfg: Config, past: seq<Move>, id: TaskId, record: StatusTransition) {
    && ReasonFits(cfg, record.reason, record.fromStatus, record.toStatus)
    && ReasonWasGiven(past, id, record.reason)
    && ClockRead(past, record.at)
  }

  // --- The invariant ---------------------------------------------------------------------------------

  ghost predicate IntentIsTraced(cfg: Config, past: seq<Move>, id: TaskId, intent: Intent) {
    match intent
    case Start => Requested(past, id, Loading(Start))
    case Approve(_, _, approver, note) => Requested(past, id, CheckingPolicy(approver, note))
    case Reject(_, rejecter, why) => Requested(past, id, FindingPaused(RejectRequest(rejecter, why)))
    case Cancel(canceller, why) => Requested(past, id, Loading(Cancel(canceller, why)))
    case Finish(_, status, reason, _, _) =>
      && ReasonFits(cfg, reason, Running, status)
      && !reason.RunStarted? && !reason.ApprovedBy? && !reason.RejectedBy? && !reason.CancelledBy?
      && (reason.BudgetExhausted? ==> intent.driver.run.steps >= cfg.maxSteps)
  }

  ghost predicate ProcessIsTraced(cfg: Config, past: seq<Move>, id: TaskId, p: Process) {
    match p
    case CheckingPolicy(_, _) => Requested(past, id, p)
    case FindingPaused(ApproveRequest(approver, note)) => Requested(past, id, CheckingPolicy(approver, note))
    case FindingPaused(RejectRequest(_, _)) => Requested(past, id, p)
    case Loading(intent) => IntentIsTraced(cfg, past, id, intent)
    case Writing(intent, _, updated) => IntentIsTraced(cfg, past, id, intent) && ClockRead(past, updated.updatedAt)
    case Returned(result, _) => result.detail.BudgetExhausted? ==> result.steps >= cfg.maxSteps
    case Raised(Forbidden(_)) => cfg.requiresSecondPerson
    case _ => true
  }

  // Only the requester is forbidden to approve.
  ghost predicate ForbiddenToTheRequester(past: seq<Move>, s: State, a: Actor) {
    a.process.Raised? && a.process.error.Forbidden? ==>
      a.id in s.cells && exists note :: Requested(past, a.id, CheckingPolicy(s.cells[a.id].task.requestedBy, note))
  }

  ghost predicate HistoryIsTraced(cfg: Config, past: seq<Move>, id: TaskId, t: AgentTask) {
    && (forall i | 0 <= i < |t.history| :: RecordIsTraced(cfg, past, id, t.history[i]))
    && t.updatedAt == if t.history == [] then t.createdAt else t.history[|t.history| - 1].at
  }

  // Every creation made the task that is stored, and no task was made twice.
  ghost predicate CreationsAreTraced(past: seq<Move>, s: State) {
    && (forall k | 0 <= k < |past| && past[k].CreateTask? ::
          && past[k].id in s.cells
          && var t := s.cells[past[k].id].task;
             t.goal == past[k].goal && t.requestedBy == past[k].requestedBy && t.createdAt == past[k].now)
    && (forall j, k | 0 <= j < k < |past| && past[j].CreateTask? && past[k].CreateTask? :: past[j].id != past[k].id)
    && (forall id | id in s.cells :: exists k | 0 <= k < |past| :: past[k].CreateTask? && past[k].id == id)
  }

  ghost predicate Traced(cfg: Config, past: seq<Move>, s: State) {
    && CreationsAreTraced(past, s)
    && (forall id | id in s.cells :: HistoryIsTraced(cfg, past, id, s.cells[id].task))
    && (forall pid | pid in s.actors :: ProcessIsTraced(cfg, past, s.actors[pid].id, s.actors[pid].process))
    && (forall pid | pid in s.actors :: ForbiddenToTheRequester(past, s, s.actors[pid]))
  }

  // --- The past only grows ----------------------------------------------------------------------------

  lemma RequestsStay(past: seq<Move>, m: Move, id: TaskId, p: Process)
    requires Requested(past, id, p)
    ensures Requested(past + [m], id, p)
  {
    var i :| 0 <= i < |past| && past[i].Spawn? && past[i].id == id && past[i].process == p;
    assert (past + [m])[i] == past[i];
  }

  lemma ClockReadsStay(past: seq<Move>, m: Move, now: int)
    requires ClockRead(past, now)
    ensures ClockRead(past + [m], now)
  {
    var i :| 0 <= i < |past| && past[i].Act? && past[i].input == Go(now);
    assert (past + [m])[i] == past[i];
  }

  lemma TracesStay(cfg: Config, past: seq<Move>, m: Move, id: TaskId)
    ensures forall p :: Requested(past, id, p) ==> Requested(past + [m], id, p)
    ensures forall now :: ClockRead(past, now) ==> ClockRead(past + [m], now)
  {
    forall p | Requested(past, id, p)
      ensures Requested(past + [m], id, p)
    {
      RequestsStay(past, m, id, p);
    }
    forall now | ClockRead(past, now)
      ensures ClockRead(past + [m], now)
    {
      ClockReadsStay(past, m, now);
    }
  }

  lemma ProcessesStayTraced(cfg: Config, past: seq<Move>, m: Move, id: TaskId, p: Process)
    requires ProcessIsTraced(cfg, past, id, p)
    ensures ProcessIsTraced(cfg, past + [m], id, p)
  {
    hide Requested, ClockRead;
    TracesStay(cfg, past, m, id);
  }

  lemma HistoriesStayTraced(cfg: Config, past: seq<Move>, m: Move, id: TaskId, t: AgentTask)
    requires HistoryIsTraced(cfg, past, id, t)
    ensures HistoryIsTraced(cfg, past + [m], id, t)
  {
    hide Requested, ClockRead, ReasonFits;
    TracesStay(cfg, past, m, id);
  }

  // --- One step --------------------------------------------------------------------------------------------

  // What a run concludes from a reply fits the edge it takes.
  lemma DecisionsFit(cfg: Config, run: Run, reply: ModelReply)
    ensures var decision := AfterReply(cfg, run, reply).1;
            decision.Settle? ==>
              && ReasonFits(cfg, decision.reason, Running, decision.status)
              && !decision.reason.RunStarted? && !decision.reason.ApprovedBy?
              && !decision.reason.RejectedBy? && !decision.reason.CancelledBy? && !decision.reason.BudgetExhausted?
  {
    WhatAReplyDecides(cfg, run, reply);
  }

  lemma StepIsTraced(cfg: Config, past: seq<Move>, pid: nat, id: TaskId, c: Cell, p: Process, input: Input)
    requires InputFits(p, input) && ProcessIsTraced(cfg, past, id, p)
    ensures ProcessIsTraced(cfg, past + [Act(pid, input)], id, Advance(cfg, c, p, input).1)
  {
    hide Requested, ClockRead, AfterReply;
    TracesStay(cfg, past, Act(pid, input), id);
    if input.Reply? {
      DecisionsFit(cfg, p.driver.run, input.reply);
    }
    if input.Go? {
      ClockIsRead(past, pid, input.now);
    }
  }

  lemma ClockIsRead(past: seq<Move>, pid: nat, now: int)
    ensures ClockRead(past + [Act(pid, Go(now))], now)
  {
    assert (past + [Act(pid, Go(now))])[|past|] == Act(pid, Go(now));
  }

  // The record of a winning write fits its edge.
  lemma LandedReasonsFit(cfg: Config, past: seq<Move>, id: TaskId, c: Cell, intent: Intent, current: AgentTask,
                         updated: AgentTask)
    requires WellFormedTask(c.task) && IntentOk(cfg, c, intent) && WriteOk(c, intent, current, updated)
    requires c.task.version == current.version && IntentIsTraced(cfg, past, id, intent)
    ensures ReasonFits(cfg, intent.Text(), c.task.status, intent.Target())
    ensures ReasonWasGiven(past, id, intent.Text())
  {
    hide Requested, Resumable, DriverOk, LifecyclePath;
    WinningWriteIsFresh(c, intent, current, updated);
    TheTableByTargets(c.task.status, intent.Target());
  }

  lemma LandingIsTraced(cfg: Config, past: seq<Move>, id: TaskId, c: Cell, p: Process)
    requires WellFormedTask(c.task) && p.Writing? && ProcessOk(cfg, c, p) && c.task.version == p.current.version
    requires ProcessIsTraced(cfg, past, id, p) && HistoryIsTraced(cfg, past, id, c.task)
    ensures HistoryIsTraced(cfg, past, id, p.updated)
  {
    hide Requested, ClockRead, ReasonFits, IntentIsTraced, IntentOk, LifecyclePath;
    WinningWriteIsFresh(c, p.intent, p.current, p.updated);
    LandedReasonsFit(cfg, past, id, c, p.intent, p.current, p.updated);
  }

  lemma StepKeepsHistoriesTraced(cfg: Config, past: seq<Move>, id: TaskId, c: Cell, p: Process, input: Input)
    requires CellOk(cfg, c) && ProcessOk(cfg, c, p) && InputFits(p, input)
    requires ProcessIsTraced(cfg, past, id, p) && HistoryIsTraced(cfg, past, id, c.task)
    ensures HistoryIsTraced(cfg, past, id, Advance(cfg, c, p, input).0.task)
    ensures Advance(cfg, c, p, input).0.task.SameIdentity(c.task)
  {
    hide CheckpointOk, CommitsOk, ApprovalsOk, BatchesOk, RequestsOk, BudgetOk, PolicyOk;
    hide ProcessOk, ProcessIsTraced, HistoryIsTraced, Advance, WellFormedTask;
    OnlyWritesChangeTheTask(cfg, c, p, input);
    if !input.Crash? && p.Writing? && c.task.version == p.current.version {
      LandingIsTraced(cfg, past, id, c, p);
    }
  }

  lemma OnlyTheRequesterIsForbidden(cfg: Config, past: seq<Move>, pid: nat, s: State, t: State, id: TaskId, p: Process,
                                    input: Input)
    requires id in s.cells && InputFits(p, input) && ProcessIsTraced(cfg, past, id, p)
    requires ForbiddenToTheRequester(past, s, Actor(id, p))
    requires id in t.cells && t.cells[id].task.requestedBy == s.cells[id].task.requestedBy
    ensures ForbiddenToTheRequester(past + [Act(pid, input)], t, Actor(id, Advance(cfg, s.cells[id], p, input).1))
  {
    hide Requested, AfterReply, ReasonFits, ClockRead;
    TracesStay(cfg, past, Act(pid, input), id);
    if !input.Crash? && p.CheckingPolicy? && p.approver == s.cells[id].task.requestedBy {
      assert Requested(past + [Act(pid, input)], id, CheckingPolicy(s.cells[id].task.requestedBy, p.note));
    }
  }

  lemma TheForbiddenStayForbidden(cfg: Config, past: seq<Move>, m: Move, s: State, t: State, a: Actor)
    requires ForbiddenToTheRequester(past, s, a)
    requires a.id in s.cells ==>
               a.id in t.cells && t.cells[a.id].task.requestedBy == s.cells[a.id].task.requestedBy
    ensures ForbiddenToTheRequester(past + [m], t, a)
  {
    hide Requested;
    TracesStay(cfg, past, m, a.id);
    if a.process.Raised? && a.process.error.Forbidden? {
      var note :| Requested(past, a.id, CheckingPolicy(s.cells[a.id].task.requestedBy, note));
      assert Requested(past + [m], a.id, CheckingPolicy(t.cells[a.id].task.requestedBy, note));
    }
  }

  // --- Every run ----------------------------------------------------------------------------------------------

  lemma ActIsTraced(cfg: Config, past: seq<Move>, s: State, m: Move)
    requires Inv(cfg, s) && m.Act? && Enabled(s, m) && s.actors[m.pid].id in s.cells && Traced(cfg, past, s)
    ensures Traced(cfg, past + [m], Perform(cfg, s, m))
  {
    hide CellOk, ProcessOk, Advance, HistoryIsTraced, ProcessIsTraced, ForbiddenToTheRequester;
    var Actor(id, p) := s.actors[m.pid];
    var t := Perform(cfg, s, m);
    ActorAndCell(cfg, s, m.pid);
    StepKeepsHistoriesTraced(cfg, past, id, s.cells[id], p, m.input);
    forall other | other in t.cells
      ensures HistoryIsTraced(cfg, past + [m], other, t.cells[other].task)
    {
      HistoriesStayTraced(cfg, past, m, other, t.cells[other].task);
    }
    forall pid | pid in t.actors
      ensures ProcessIsTraced(cfg, past + [m], t.actors[pid].id, t.actors[pid].process)
      ensures ForbiddenToTheRequester(past + [m], t, t.actors[pid])
    {
      if pid == m.pid {
        StepIsTraced(cfg, past, pid, id, s.cells[id], p, m.input);
        OnlyTheRequesterIsForbidden(cfg, past, pid, s, t, id, p, m.input);
      } else {
        TheForbiddenStayForbidden(cfg, past, m, s, t, s.actors[pid]);
        ProcessesStayTraced(cfg, past, m, s.actors[pid].id, s.actors[pid].process);
      }
    }
    ActsCreateNothing(past, s, t, m);
  }

  lemma ActsCreateNothing(past: seq<Move>, s: State, t: State, m: Move)
    requires CreationsAreTraced(past, s) && !m.CreateTask?
    requires t.cells.Keys == s.cells.Keys
    requires forall id | id in s.cells :: t.cells[id].task.SameIdentity(s.cells[id].task)
    ensures CreationsAreTraced(past + [m], t)
  {
    var all := past + [m];
    assert all[|past|] == m;
    assert forall k | 0 <= k < |past| :: all[k] == past[k];
    forall id | id in t.cells
      ensures exists k | 0 <= k < |all| :: all[k].CreateTask? && all[k].id == id
    {
      var k :| 0 <= k < |past| && past[k].CreateTask? && past[k].id == id;
      assert all[k] == past[k];
    }
  }

  lemma StraysAreTraced(cfg: Config, past: seq<Move>, s: State, m: Move)
    requires Inv(cfg, s) && m.Act? && Enabled(s, m) && s.actors[m.pid].id !in s.cells && Traced(cfg, past, s)
    ensures Traced(cfg, past + [m], Perform(cfg, s, m))
  {
    hide CellOk, ProcessOk, HistoryIsTraced, Inv, ReasonFits, Requested;
    var t := Perform(cfg, s, m);
    OthersStayTraced(cfg, past, s, t, m);
    ActsCreateNothing(past, s, t, m);
  }

  lemma OthersStayTraced(cfg: Config, past: seq<Move>, s: State, t: State, m: Move)
    requires Traced(cfg, past, s)
    requires s.cells.Keys <= t.cells.Keys
    requires forall id | id in s.cells :: t.cells[id].task.SameIdentity(s.cells[id].task)
    ensures forall id | id in s.cells :: HistoryIsTraced(cfg, past + [m], id, s.cells[id].task)
    ensures forall pid | pid in s.actors :: ProcessIsTraced(cfg, past + [m], s.actors[pid].id, s.actors[pid].process)
    ensures forall pid | pid in s.actors :: ForbiddenToTheRequester(past + [m], t, s.actors[pid])
  {
    hide HistoryIsTraced, ProcessIsTraced, CreationsAreTraced, ForbiddenToTheRequester;
    forall id | id in s.cells
      ensures HistoryIsTraced(cfg, past + [m], id, s.cells[id].task)
    {
      HistoriesStayTraced(cfg, past, m, id, s.cells[id].task);
    }
    forall pid | pid in s.actors
      ensures ProcessIsTraced(cfg, past + [m], s.actors[pid].id, s.actors[pid].process)
      ensures ForbiddenToTheRequester(past + [m], t, s.actors[pid])
    {
      ProcessesStayTraced(cfg, past, m, s.actors[pid].id, s.actors[pid].process);
      TheForbiddenStayForbidden(cfg, past, m, s, t, s.actors[pid]);
    }
  }

  // A request stands for itself.
  lemma RequestsAreTraced(cfg: Config, past: seq<Move>, m: Move)
    requires m.Spawn? && m.process.Initial()
    ensures ProcessIsTraced(cfg, past + [m], m.id, m.process)
  {
    assert (past + [m])[|past|] == m;
    assert Requested(past + [m], m.id, m.process);
  }

  lemma SpawnIsTraced(cfg: Config, past: seq<Move>, s: State, m: Move)
    requires m.Spawn? && Enabled(s, m) && Traced(cfg, past, s)
    ensures Traced(cfg, past + [m], Perform(cfg, s, m))
  {
    hide HistoryIsTraced, ProcessIsTraced;
    OthersStayTraced(cfg, past, s, Perform(cfg, s, m), m);
    RequestsAreTraced(cfg, past, m);
    ActsCreateNothing(past, s, Perform(cfg, s, m), m);
  }

  lemma OneMoreCreation(past: seq<Move>, s: State, t: State, m: Move)
    requires CreationsAreTraced(past, s) && m.CreateTask? && m.id !in s.cells
    requires t.cells == s.cells[m.id := Cell(AgentTask.Create(m.id, m.goal, m.requestedBy, m.now), [])]
    ensures CreationsAreTraced(past + [m], t)
  {
    var all := past + [m];
    assert all[|past|] == m;
    assert forall k | 0 <= k < |past| :: all[k] == past[k];
    forall id | id in t.cells
      ensures exists k | 0 <= k < |all| :: all[k].CreateTask? && all[k].id == id
    {
      if id != m.id {
        var k :| 0 <= k < |past| && past[k].CreateTask? && past[k].id == id;
        assert all[k] == past[k];
      }
    }
  }

  lemma CreationIsTraced(cfg: Config, past: seq<Move>, s: State, m: Move)
    requires m.CreateTask? && Enabled(s, m) && Traced(cfg, past, s)
    ensures Traced(cfg, past + [m], Perform(cfg, s, m))
  {
    hide ProcessIsTraced, ForbiddenToTheRequester, CreationsAreTraced, RecordIsTraced;
    OthersStayTraced(cfg, past, s, Perform(cfg, s, m), m);
    OneMoreCreation(past, s, Perform(cfg, s, m), m);
  }

  lemma MoveIsTraced(cfg: Config, past: seq<Move>, s: State, m: Move)
    requires Inv(cfg, s) && Enabled(s, m) && Traced(cfg, past, s)
    ensures Traced(cfg, past + [m], Perform(cfg, s, m))
  {
    hide Inv, Traced, Perform;
    match m
    case CreateTask(_, _, _, _) => CreationIsTraced(cfg, past, s, m);
    case Spawn(_, _, _) => SpawnIsTraced(cfg, past, s, m);
    case Act(pid, _) =>
      if s.actors[pid].id in s.cells {
        ActIsTraced(cfg, past, s, m);
      } else {
        StraysAreTraced(cfg, past, s, m);
      }
  }

  lemma {:induction false} MovesAreTraced(cfg: Config, past: seq<Move>, s: State, moves: seq<Move>)
    requires Inv(cfg, s) && Legal(cfg, s, moves) && Traced(cfg, past, s)
    ensures Traced(cfg, past + moves, After(cfg, s, moves))
    decreases |moves|
  {
    hide Inv, Perform, Enabled, Traced;
    if moves == [] {
      assert past + moves == past;
    } else {
      MoveIsTraced(cfg, past, s, moves[0]);
      InvIsInductive(cfg, s, moves[0]);
      MovesAreTraced(cfg, past + [moves[0]], Perform(cfg, s, moves[0]), moves[1..]);
      assert past + [moves[0]] + moves[1..] == past + moves;
    }
  }

  lemma ReachedIsTraced(cfg: Config, moves: seq<Move>)
    requires cfg.Valid() && Legal(cfg, EMPTY, moves)
    ensures Traced(cfg, moves, Reached(cfg, moves))
  {
    hide Inv, Perform, Enabled, ProcessIsTraced, HistoryIsTraced;
    InvInitially(cfg);
    MovesAreTraced(cfg, [], EMPTY, moves);
    assert [] + moves == moves;
  }

  // --- What it comes to ------------------------------------------------------------------------------------------

  // Every stored task was made by exactly one request, and has the goal, the
  // requester and the creation time of that request, whatever has happened since.
  lemma TasksComeFromTheirRequest(cfg: Config, moves: seq<Move>, id: TaskId) returns (k: nat)
    requires cfg.Valid() && Legal(cfg, EMPTY, moves) && id in Reached(cfg, moves).cells
    ensures var t := Reached(cfg, moves).cells[id].task;
            k < |moves| && moves[k] == CreateTask(id, t.goal, t.requestedBy, t.createdAt)
    ensures forall j | 0 <= j < |moves| && moves[j].CreateTask? && moves[j].id == id :: j == k
  {
    hide Legal, After, HistoryIsTraced, ProcessIsTraced;
    ReachedIsTraced(cfg, moves);
    k :| 0 <= k < |moves| && moves[k].CreateTask? && moves[k].id == id;
  }

  // With the second-person policy on, no approval on any record is by whoever
  // requested the task when it was created.
  lemma NobodyApprovesTheirOwnTask(cfg: Config, moves: seq<Move>, k: nat)
    requires cfg.Valid() && Legal(cfg, EMPTY, moves) && cfg.requiresSecondPerson
    requires k < |moves| && moves[k].CreateTask?
    ensures moves[k].id in Reached(cfg, moves).cells
    ensures var t := Reached(cfg, moves).cells[moves[k].id].task;
            forall i | 0 <= i < |t.history| && t.history[i].reason.ApprovedBy? ::
              t.history[i].reason.approver != moves[k].requestedBy
  {
    hide Legal, After, HistoryIsTraced, ProcessIsTraced;
    ReachedIsTraced(cfg, moves);
    ApproversAreNotTheRequester(cfg, moves, moves[k].id);
  }

  // Only the second-person policy forbids an approval, and only the requester's own.
  lemma OnlyTheRequesterIsRefused(cfg: Config, moves: seq<Move>, pid: nat)
    requires cfg.Valid() && Legal(cfg, EMPTY, moves) && pid in Reached(cfg, moves).actors
    requires var p := Reached(cfg, moves).actors[pid].process; p.Raised? && p.error.Forbidden?
    ensures cfg.requiresSecondPerson
    ensures var s := Reached(cfg, moves);
            var id := s.actors[pid].id;
            id in s.cells && exists note :: Requested(moves, id, CheckingPolicy(s.cells[id].task.requestedBy, note))
  {
    hide Legal, After, HistoryIsTraced, CreationsAreTraced, Requested;
    ReachedIsTraced(cfg, moves);
    var s := Reached(cfg, moves);
    assert ProcessIsTraced(cfg, moves, s.actors[pid].id, s.actors[pid].process);
    assert ForbiddenToTheRequester(moves, s, s.actors[pid]);
  }

  // A run reported out of budget has spent all of it.
  lemma ExhaustedRunsSpentTheirBudget(cfg: Config, moves: seq<Move>, pid: nat)
    requires cfg.Valid() && Legal(cfg, EMPTY, moves) && pid in Reached(cfg, moves).actors
    requires var p := Reached(cfg, moves).actors[pid].process; p.Returned? && p.result.detail.BudgetExhausted?
    ensures Reached(cfg, moves).actors[pid].process.result.steps >= cfg.maxSteps
  {
    hide Legal, After, HistoryIsTraced, CreationsAreTraced, ForbiddenToTheRequester;
    ReachedIsTraced(cfg, moves);
    var s := Reached(cfg, moves);
    assert ProcessIsTraced(cfg, moves, s.actors[pid].id, s.actors[pid].process);
  }

  // The audit trail is true: every record takes the edge its reason is for; whoever
  // it names asked for that, on that task, in the words recorded; its time is one a
  // step read off the clock; and the task was last updated at its last record.
  lemma TheAuditTrailIsTrue(cfg: Config, moves: seq<Move>, id: TaskId, i: nat)
    requires cfg.Valid() && Legal(cfg, EMPTY, moves) && id in Reached(cfg, moves).cells
    requires i < |Reached(cfg, moves).cells[id].task.history|
    ensures var t := Reached(cfg, moves).cells[id].task;
            && ReasonFits(cfg, t.history[i].reason, t.history[i].fromStatus, t.history[i].toStatus)
            && ReasonWasGiven(moves, id, t.history[i].reason)
            && ClockRead(moves, t.history[i].at)
            && t.updatedAt == t.history[|t.history| - 1].at
  {
    hide Legal, After, CreationsAreTraced, ProcessIsTraced, ReasonFits, ReasonWasGiven, ClockRead;
    ReachedIsTraced(cfg, moves);
    var t := Reached(cfg, moves).cells[id].task;
    assert HistoryIsTraced(cfg, moves, id, t);
    assert RecordIsTraced(cfg, moves, id, t.history[i]);
  }
}
