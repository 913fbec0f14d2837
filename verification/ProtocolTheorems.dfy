/** What the protocol guarantees over every run, from the empty system. */
module ProtocolTheorems {
  import opened Wrappers
  import opened Messages
  import opened Tasks
  import opened RunLogic
  import opened Protocol
  import opened ProtocolInvariant

  // The state a legal run from the empty system ends in.
  function Reached(cfg: Config, moves: seq<Move>): State
    requires Legal(cfg, EMPTY, moves)
  {
    After(cfg, EMPTY, moves)
  }

  lemma ReachedIsOk(cfg: Config, moves: seq<Move>)
    requires cfg.Valid() && Legal(cfg, EMPTY, moves)
    ensures Inv(cfg, Reached(cfg, moves))
  {
    InvInitially(cfg);
    InvAlways(cfg, EMPTY, moves);
  }

  // --- Runs in sequence -------------------------------------------------------------

  lemma {:induction false} AfterInSequence(cfg: Config, s: State, first: seq<Move>, rest: seq<Move>)
    requires Legal(cfg, s, first) && Legal(cfg, After(cfg, s, first), rest)
    ensures Legal(cfg, s, first + rest)
    ensures After(cfg, s, first + rest) == After(cfg, After(cfg, s, first), rest)
    decreases |first|
  {
    if first == [] {
      assert first + rest == rest;
    } else {
      assert (first + rest)[1..] == first[1..] + rest;
      AfterInSequence(cfg, Perform(cfg, s, first[0]), first[1..], rest);
    }
  }

  lemma OneMove(cfg: Config, s: State, m: Move)
    requires Enabled(s, m)
    ensures Legal(cfg, s, [m]) && After(cfg, s, [m]) == Perform(cfg, s, m)
  {
    hide Enabled, Perform;
    assert [m][1..] == [];
  }

  // --- Histories only grow ----------------------------------------------------------

  // How a cell relates to what it was before: nothing is forgotten, a version
  // number stands for one whole task, and a decided task is never touched.
  ghost predicate Later(before: Cell, after: Cell) {
    && after.task.SameIdentity(before.task)
    && before.task.history <= after.task.history
    && before.log <= after.log
    && before.task.version <= after.task.version
    && (before.task.version == after.task.version ==> before.task == after.task)
    && (Terminal(before.task.status) ==> before.task == after.task)
  }

  lemma LaterIsTransitive(a: Cell, b: Cell, c: Cell)
    requires Later(a, b) && Later(b, c)
    ensures Later(a, c)
  {}

  lemma StepMakesItLater(cfg: Config, c: Cell, p: Process, input: Input)
    requires cfg.Valid() && CellOk(cfg, c) && ProcessOk(cfg, c, p) && InputFits(p, input)
    ensures Later(c, Advance(cfg, c, p, input).0)
  {
    hide CellOk, ProcessOk, Advance;
    StepOnTheTask(cfg, c, p, input);
    OnlyWritesChangeTheTask(cfg, c, p, input);
  }

  lemma StepMakesTheCellLater(cfg: Config, s: State, m: Move, id: TaskId)
    requires Inv(cfg, s) && Enabled(s, m) && id in s.cells
    ensures id in Perform(cfg, s, m).cells && Later(s.cells[id], Perform(cfg, s, m).cells[id])
  {
    hide CellOk, ProcessOk, Advance;
    if m.Act? && s.actors[m.pid].id == id {
      ActorAndCell(cfg, s, m.pid);
      StepMakesItLater(cfg, s.cells[id], s.actors[m.pid].process, m.input);
    }
  }

  lemma {:induction false} HistoriesOnlyGrow(cfg: Config, s: State, moves: seq<Move>, id: TaskId)
    requires Inv(cfg, s) && Legal(cfg, s, moves) && id in s.cells
    ensures id in After(cfg, s, moves).cells
    ensures Later(s.cells[id], After(cfg, s, moves).cells[id])
    decreases |moves|
  {
    if moves != [] {
      var t := Perform(cfg, s, moves[0]);
      StepMakesTheCellLater(cfg, s, moves[0], id);
      InvIsInductive(cfg, s, moves[0]);
      HistoriesOnlyGrow(cfg, t, moves[1..], id);
      LaterIsTransitive(s.cells[id], t.cells[id], After(cfg, t, moves[1..]).cells[id]);
    }
  }

  // Every stored history is a contiguous path of the lifecycle table from
  // `pending` to the stored status, and the version counts its edges.
  lemma StoredHistoriesArePaths(cfg: Config, moves: seq<Move>, id: TaskId)
    requires cfg.Valid() && Legal(cfg, EMPTY, moves) && id in Reached(cfg, moves).cells
    ensures var t := Reached(cfg, moves).cells[id].task;
            && t.version == 1 + |t.history|
            && (t.history == [] ==> t.status == Pending)
            && (t.history != [] ==>
                  t.history[0].fromStatus == Pending && t.history[|t.history| - 1].toStatus == t.status)
            && (forall i | 0 <= i < |t.history| :: t.history[i].toStatus in Allowed(t.history[i].fromStatus))
            && (forall i | 0 < i < |t.history| :: t.history[i - 1].toStatus == t.history[i].fromStatus)
  {
    ReachedIsOk(cfg, moves);
    var t := Reached(cfg, moves).cells[id].task;
    assert CellOk(cfg, Reached(cfg, moves).cells[id]);
    PathIsContiguous(t.history, t.status);
  }

  // --- One driver per task -------------------------------------------------------------

  // At most one driver is between its winning commit and its return, and while it
  // is, the stored task is the one it committed or that one cancelled.
  lemma OneDriverPerTask(cfg: Config, moves: seq<Move>, p: nat, q: nat)
    requires cfg.Valid() && Legal(cfg, EMPTY, moves)
    requires var s := Reached(cfg, moves);
             && p in s.actors && q in s.actors && s.actors[p].id == s.actors[q].id
             && s.actors[p].process.Live() && s.actors[q].process.Live()
    ensures p == q
    ensures var s := Reached(cfg, moves);
            && s.actors[p].id in s.cells
            && Drives(s.cells[s.actors[p].id].task, s.actors[p].process.TheDriver())
  {
    hide CellOk;
    ReachedIsOk(cfg, moves);
    assert ActorOk(cfg, Reached(cfg, moves), Reached(cfg, moves).actors[p]);
  }

  // `_finish` states no version, yet the write it makes can only replace the very
  // version its own run committed, still running.
  lemma FinishOnlyReplacesItsOwnRun(cfg: Config, moves: seq<Move>, pid: nat)
    requires cfg.Valid() && Legal(cfg, EMPTY, moves)
    requires var s := Reached(cfg, moves);
             && pid in s.actors && s.actors[pid].id in s.cells
             && s.actors[pid].process.Writing? && s.actors[pid].process.intent.Finish?
             && s.cells[s.actors[pid].id].task.version == s.actors[pid].process.current.version
    ensures var s := Reached(cfg, moves);
            var stored := s.cells[s.actors[pid].id].task;
            && stored.status == Running
            && stored.version == s.actors[pid].process.intent.driver.version
            && stored == s.actors[pid].process.current
  {
    hide CellOk, Resumable, Legal, After;
    ReachedIsOk(cfg, moves);
    var s := Reached(cfg, moves);
    assert ActorOk(cfg, s, s.actors[pid]);
  }

  // --- Approval -------------------------------------------------------------------------

  // A task waits for a human exactly when it holds a run to continue, and the run
  // it holds can be continued; nobody ever sees "no paused run to resume".
  lemma PausedMeansResumable(cfg: Config, moves: seq<Move>)
    requires cfg.Valid() && Legal(cfg, EMPTY, moves)
    ensures var s := Reached(cfg, moves);
            && (forall id | id in s.cells ::
                  && (s.cells[id].task.status == AwaitingApproval <==> s.cells[id].task.checkpoint.Some?)
                  && (s.cells[id].task.checkpoint.Some? ==> Resumable(cfg, s.cells[id].task.checkpoint.value)))
            && (forall pid | pid in s.actors && s.actors[pid].process.Raised? ::
                  !s.actors[pid].process.error.NotResumable? && !s.actors[pid].process.error.CheckpointMisplaced?)
  {
    hide CommitsOk, ApprovalsOk, BatchesOk, RequestsOk, BudgetOk, PolicyOk;
    ReachedIsOk(cfg, moves);
    var s := Reached(cfg, moves);
    forall id | id in s.cells
      ensures s.cells[id].task.status == AwaitingApproval <==> s.cells[id].task.checkpoint.Some?
      ensures s.cells[id].task.checkpoint.Some? ==> Resumable(cfg, s.cells[id].task.checkpoint.value)
    {
      assert CellOk(cfg, s.cells[id]);
    }
    forall pid | pid in s.actors && s.actors[pid].process.Raised?
      ensures !s.actors[pid].process.error.NotResumable? && !s.actors[pid].process.error.CheckpointMisplaced?
    {
      assert ActorOk(cfg, s, s.actors[pid]);
    }
  }

  // What a human is shown of a paused task is the whole held turn, in order, and
  // the calls marked for approval are those the pause put on record.
  lemma HumansSeeWhatThePauseSaw(cfg: Config, moves: seq<Move>, id: TaskId)
    requires cfg.Valid() && Legal(cfg, EMPTY, moves) && id in Reached(cfg, moves).cells
    requires Reached(cfg, moves).cells[id].task.status == AwaitingApproval
    ensures var t := Reached(cfg, moves).cells[id].task;
            var shown := PendingApproval(cfg, t);
            && t.checkpoint.Some? && t.history != []
            && |shown| == |t.checkpoint.value.PendingCalls()|
            && (forall i | 0 <= i < |shown| :: shown[i].call == t.checkpoint.value.PendingCalls()[i])
            && (exists i | 0 <= i < |shown| :: shown[i].needsApproval)
            && (forall i | 0 <= i < |shown| ::
                  && (shown[i].risk.Some? <==> shown[i].call.name in cfg.tools)
                  && (shown[i].risk.Some? ==> shown[i].risk.value == cfg.tools[shown[i].call.name].risk)
                  && (shown[i].needsApproval
                      <==> shown[i].risk.Some? && Above(shown[i].risk.value, cfg.autoApproveUpTo)))
            && t.history[|t.history| - 1].reason
               == ApprovalRequired(set i | 0 <= i < |shown| && shown[i].needsApproval :: shown[i].call.name)
  {
    hide CommitsOk, ApprovalsOk, BatchesOk, RequestsOk, BudgetOk, PolicyOk, OnToolTurn, PendingApproval, LifecyclePath;
    ReachedIsOk(cfg, moves);
    var t := Reached(cfg, moves).cells[id].task;
    assert CellOk(cfg, Reached(cfg, moves).cells[id]);
    TheViewShowsTheWholeTurn(cfg, t);
  }

  // `resume` reads twice before it writes. If its write lands, what it goes on to
  // run is the checkpoint stored at that very instant.
  lemma ResumeContinuesTheStoredRun(cfg: Config, moves: seq<Move>, pid: nat, now: int)
    requires cfg.Valid() && Legal(cfg, EMPTY, moves)
    requires var s := Reached(cfg, moves);
             && pid in s.actors && s.actors[pid].id in s.cells
             && s.actors[pid].process.Writing? && s.actors[pid].process.intent.Approve?
    ensures var s := Reached(cfg, moves);
            var stored := s.cells[s.actors[pid].id].task;
            var next := Perform(cfg, s, Act(pid, Go(now))).actors[pid].process;
            if stored.version == s.actors[pid].process.current.version then
              && stored.status == AwaitingApproval && stored.checkpoint.Some?
              && next.BeforeTools?
              && next.driver.run == Resuming(stored.checkpoint.value)
              && next.calls == stored.checkpoint.value.PendingCalls()
              && next.approval == Some(|s.cells[s.actors[pid].id].log|)
            else
              next == Raised(ConcurrentUpdate(stored.id, s.actors[pid].process.current.version, stored.version))
  {
    hide CellOk, Resumable, Legal, After, Drives;
    ReachedIsOk(cfg, moves);
    var s := Reached(cfg, moves);
    assert ActorOk(cfg, s, s.actors[pid]);
  }

  // In the log of any task, a batch with a call that needs a human was released by
  // an approval earlier in the log, of the exact paused task holding its calls; and
  // two batches never go back to the same paused version.
  lemma ReleasesGoBackToApprovals(cfg: Config, moves: seq<Move>, id: TaskId)
    requires cfg.Valid() && Legal(cfg, EMPTY, moves) && id in Reached(cfg, moves).cells
    ensures var log := Reached(cfg, moves).cells[id].log;
            && (forall i | 0 <= i < |log| && log[i].Ran? && cfg.TripsTheGate(log[i].calls) :: log[i].approval.Some?)
            && (forall i | 0 <= i < |log| && log[i].Ran? && log[i].approval.Some? ::
                  && log[i].approval.value < i
                  && IsApproval(log[log[i].approval.value])
                  && log[i].calls == log[log[i].approval.value].intent.released.PendingCalls())
            && (forall i, j | 0 <= i < j < |log| && log[i].Ran? && log[j].Ran?
                            && log[i].approval.Some? && log[j].approval.Some? ::
                  log[log[i].approval.value].before.version != log[log[j].approval.value].before.version)
  {
    ReachedIsOk(cfg, moves);
    var c := Reached(cfg, moves).cells[id];
    assert CellOk(cfg, c);
    forall i, j | 0 <= i < j < |c.log| && c.log[i].Ran? && c.log[j].Ran? && c.log[i].approval.Some?
        && c.log[j].approval.Some?
      ensures c.log[c.log[i].approval.value].before.version != c.log[c.log[j].approval.value].before.version
    {
      CommitsLeaveAVersionOnce(c, c.log[i].approval.value, c.log[j].approval.value);
    }
  }

  // Two different commits never replace the same version.
  lemma CommitsLeaveAVersionOnce(c: Cell, i: nat, j: nat)
    requires CommitsOk(c)
    requires i < |c.log| && j < |c.log| && i != j && c.log[i].Committed? && c.log[j].Committed?
    ensures c.log[i].before.version != c.log[j].before.version
  {
    if i < j {
      assert c.log[i].after.version <= c.log[j].before.version;
    } else {
      assert c.log[j].after.version <= c.log[i].before.version;
    }
  }

  // No approval releases a paused version left by a rejection, a cancellation or a
  // fresh run.
  lemma DeniedVersionsAreNotReleased(cfg: Config, moves: seq<Move>, id: TaskId, i: nat)
    requires cfg.Valid() && Legal(cfg, EMPTY, moves) && id in Reached(cfg, moves).cells
    requires var log := Reached(cfg, moves).cells[id].log;
             i < |log| && log[i].Committed? && log[i].before.status == AwaitingApproval && !log[i].intent.Approve?
    ensures var log := Reached(cfg, moves).cells[id].log;
            forall k | 0 <= k < |log| && log[k].Ran? && log[k].approval.Some? ::
              && log[k].approval.value < |log|
              && log[log[k].approval.value].Committed?
              && log[log[k].approval.value].before.version != log[i].before.version
  {
    ReachedIsOk(cfg, moves);
    var c := Reached(cfg, moves).cells[id];
    assert CellOk(cfg, c);
    forall k | 0 <= k < |c.log| && c.log[k].Ran? && c.log[k].approval.Some?
      ensures c.log[k].approval.value < |c.log| && c.log[c.log[k].approval.value].Committed?
      ensures c.log[c.log[k].approval.value].before.version != c.log[i].before.version
    {
      CommitsLeaveAVersionOnce(c, c.log[k].approval.value, i);
    }
  }

  // With the second-person policy on, no approval on record is by the requester on record.
  lemma ApproversAreNotTheRequester(cfg: Config, moves: seq<Move>, id: TaskId)
    requires cfg.Valid() && Legal(cfg, EMPTY, moves) && id in Reached(cfg, moves).cells
    requires cfg.requiresSecondPerson
    ensures var t := Reached(cfg, moves).cells[id].task;
            forall i | 0 <= i < |t.history| && t.history[i].reason.ApprovedBy? ::
              t.history[i].reason.approver != t.requestedBy
  {
    ReachedIsOk(cfg, moves);
    assert CellOk(cfg, Reached(cfg, moves).cells[id]);
  }

  // --- Conversations ------------------------------------------------------------------------

  // Every request ever sent alternates turns from the user's, answers every tool
  // turn call by call, and passes every validator.
  lemma EveryRequestIsWellFormed(cfg: Config, moves: seq<Move>, id: TaskId, i: nat)
    requires cfg.Valid() && Legal(cfg, EMPTY, moves) && id in Reached(cfg, moves).cells
    requires i < |Reached(cfg, moves).cells[id].log| && Reached(cfg, moves).cells[id].log[i].Asked?
    ensures var messages := Reached(cfg, moves).cells[id].log[i].messages;
            ValidRequest(messages) && WellFormedTurns(messages)
  {
    ReachedIsOk(cfg, moves);
    assert CellOk(cfg, Reached(cfg, moves).cells[id]);
    ConversationTurns(Reached(cfg, moves).cells[id].log[i].messages);
  }

  // --- Budget --------------------------------------------------------------------------------------

  lemma {:induction false} AllowanceIsPerStart(m: nat, log: seq<Event>)
    ensures Allowance(m, log) == m * Starts(log)
  {
    if log != [] {
      AllowanceIsPerStart(m, log[..|log| - 1]);
    }
  }

  lemma {:induction false} CallsInRunAreCalls(log: seq<Event>)
    ensures CallsInRun(log) <= ModelCalls(log)
  {
    if log != [] {
      CallsInRunAreCalls(log[..|log| - 1]);
    }
  }

  // Over its whole life a task is worth one step budget per winning start, however
  // often it is paused and approved.
  lemma BudgetOverAWholeLife(cfg: Config, moves: seq<Move>, id: TaskId)
    requires cfg.Valid() && Legal(cfg, EMPTY, moves) && id in Reached(cfg, moves).cells
    ensures var c := Reached(cfg, moves).cells[id];
            && CallsInRun(c.log) <= cfg.maxSteps
            && ModelCalls(c.log) <= cfg.maxSteps * Starts(c.log)
            && |c.task.history| <= 2 * (cfg.maxSteps * Starts(c.log)) + 2
            && (Starts(c.log) <= 1 ==> ModelCalls(c.log) <= cfg.maxSteps && c.task.version <= 2 * cfg.maxSteps + 3)
  {
    hide CheckpointOk, CommitsOk, ApprovalsOk, BatchesOk, RequestsOk, PolicyOk, LifecyclePath, ActorOk, OneDriver;
    hide Legal, After, Starts, ModelCalls, CallsInRun, Allowance, StepsAtEntry;
    ReachedIsOk(cfg, moves);
    var c := Reached(cfg, moves).cells[id];
    assert CellOk(cfg, c);
    AllowanceIsPerStart(cfg.maxSteps, c.log);
    StartsAndAllowance(cfg.maxSteps, c.log);
    CallsInRunAreCalls(c.log);
  }
}
