/** What a live driver can still do after its task was cancelled. */
module Cancellation {
  import opened Messages
  import opened Tasks
  import opened RunLogic
  import opened Protocol
  import opened ProtocolInvariant
  import opened ProtocolTheorems

  // Model calls a process may still start before it next reads the task. The head
  // of a run that has spent a step reads first; only a fresh run does not.
  function ModelTail(p: Process): nat {
    if p.Asking? || (p.LoopHead? && p.driver.run.steps == 0) then 1 else 0
  }

  function BatchTail(p: Process): nat {
    if p.Asking? || p.InModel? || p.BeforeTools? || (p.LoopHead? && p.driver.run.steps == 0) then 1 else 0
  }

  // Steps until the run returns, once its task is decided.
  function Distance(p: Process): nat {
    match p
    case LoopHead(d) => if d.run.steps == 0 then 9 else 4
    case Asking(_) => 8
    case InModel(_) => 7
    case BeforeTools(_, _, _) => 6
    case InTools(_, _) => 5
    case Loading(_) => 3
    case Writing(_, _, _) => 2
    case Reporting(_, _) => 1
    case _ => 0
  }

  // What a step that makes no winning write adds to the log.
  function Added(p: Process, input: Input): seq<Event>
    requires InputFits(p, input)
  {
    if input.Crash? then []
    else if p.Asking? then [Asked(p.driver.run.messages)]
    else if p.InModel? && input.reply.Replied? then [Heard(input.reply.completion)]
    else if p.BeforeTools? then [Ran(p.calls, p.approval)]
    else if p.InTools? then [Told(input.results)]
    else []
  }

  // On a decided task a step never writes; it may add one event to the log.
  lemma DecidedTasksStay(cfg: Config, c: Cell, p: Process, input: Input)
    requires CellOk(cfg, c) && ProcessOk(cfg, c, p) && InputFits(p, input)
    requires Terminal(c.task.status)
    ensures var cell := Advance(cfg, c, p, input).0;
            && cell.task == c.task
            && cell.log == c.log + Added(p, input)
  {
    hide CellOk, ProcessOk, AfterReply, Load, Won, Lost;
    NoWriteLands(cfg, c, p);
  }

  // A winning write leaves a status that the table lets it leave.
  lemma NoWriteLands(cfg: Config, c: Cell, p: Process)
    requires CellOk(cfg, c) && ProcessOk(cfg, c, p) && Terminal(c.task.status)
    ensures p.Writing? ==> c.task.version != p.current.version
  {
    hide CheckpointOk, CommitsOk, ApprovalsOk, BatchesOk, RequestsOk, BudgetOk, PolicyOk, IntentOk;
    if p.Writing? && c.task.version == p.current.version {
      WinningWriteIsFresh(c, p.intent, p.current, p.updated);
    }
  }

  // What a step starts is gone from the process's tail.
  lemma TailsShrink(cfg: Config, c: Cell, p: Process, input: Input)
    requires InputFits(p, input) && Terminal(c.task.status)
    requires p.Writing? ==> c.task.version != p.current.version
    requires p.InTools? ==> p.driver.run.steps > 0
    ensures var next := Advance(cfg, c, p, input).1;
            && ModelTail(next) + (if p.Asking? && !input.Crash? then 1 else 0) <= ModelTail(p)
            && BatchTail(next) + (if p.BeforeTools? && !input.Crash? then 1 else 0) <= BatchTail(p)
  {
    hide AfterReply;
  }

  lemma OnTheWayBack(cfg: Config, c: Cell, p: Process)
    requires ProcessOk(cfg, c, p)
    ensures p.InTools? ==> p.driver.run.steps > 0
    ensures p.Reporting? ==> p.ending != Settled
  {
    hide DriverOk, PausedConversation;
  }

  // One step on a decided task: what it starts comes out of the process's tail.
  lemma StepsComeOutOfTheTail(cfg: Config, c: Cell, p: Process, input: Input)
    requires cfg.Valid() && CellOk(cfg, c) && ProcessOk(cfg, c, p) && InputFits(p, input)
    requires Terminal(c.task.status)
    ensures var (cell, next) := Advance(cfg, c, p, input);
            && Commits(cell.log) == Commits(c.log)
            && ModelCalls(c.log) <= ModelCalls(cell.log)
            && ModelCalls(cell.log) + ModelTail(next) <= ModelCalls(c.log) + ModelTail(p)
            && ToolBatches(c.log) <= ToolBatches(cell.log)
            && ToolBatches(cell.log) + BatchTail(next) <= ToolBatches(c.log) + BatchTail(p)
  {
    hide CellOk, ProcessOk, Advance, ModelTail, BatchTail;
    DecidedTasksStay(cfg, c, p, input);
    NoWriteLands(cfg, c, p);
    OnTheWayBack(cfg, c, p);
    TailsShrink(cfg, c, p, input);
    if Added(p, input) == [] {
      assert c.log + [] == c.log;
    } else {
      LoggingInTheLog(cfg.maxSteps, c.log, Added(p, input)[0]);
    }
  }

  lemma StepsComeNearer(cfg: Config, c: Cell, p: Process, input: Input)
    requires cfg.Valid() && InputFits(p, input) && !input.Crash? && Terminal(c.task.status) && p.Live()
    requires p.Writing? ==> c.task.version != p.current.version
    requires p.InTools? ==> p.driver.run.steps > 0
    requires p.Reporting? ==> p.ending != Settled
    ensures var next := Advance(cfg, c, p, input).1;
            if next.Live() then Distance(next) < Distance(p) <= 9
            else next.Returned? && next.ending != Settled && next.result.task == c.task
  {
    hide AfterReply;
  }

  // And a live driver gets strictly nearer to returning the decided task.
  lemma DriversReturn(cfg: Config, c: Cell, p: Process, input: Input)
    requires cfg.Valid() && CellOk(cfg, c) && ProcessOk(cfg, c, p) && InputFits(p, input) && !input.Crash?
    requires Terminal(c.task.status) && p.Live()
    ensures var next := Advance(cfg, c, p, input).1;
            if next.Live() then Distance(next) < Distance(p) <= 9
            else next.Returned? && next.ending != Settled && next.result.task == c.task
  {
    hide CellOk, ProcessOk, Advance, Distance;
    NoWriteLands(cfg, c, p);
    OnTheWayBack(cfg, c, p);
    StepsComeNearer(cfg, c, p, input);
  }

  // Nothing on this task can start more than these model calls and batches.
  ghost predicate TailWithin(s: State, id: TaskId, calls: nat, batches: nat) {
    && id in s.cells && Terminal(s.cells[id].task.status)
    && ModelCalls(s.cells[id].log) <= calls && ToolBatches(s.cells[id].log) <= batches
    && forall pid | pid in s.actors && s.actors[pid].id == id ::
         && ModelCalls(s.cells[id].log) + ModelTail(s.actors[pid].process) <= calls
         && ToolBatches(s.cells[id].log) + BatchTail(s.actors[pid].process) <= batches
  }

  // Of the processes on one task, at most one has a tail.
  lemma OthersHaveNoTail(cfg: Config, s: State, pid: nat, other: nat)
    requires Inv(cfg, s) && pid in s.actors && other in s.actors && pid != other
    requires s.actors[pid].id == s.actors[other].id && s.actors[pid].process.Live()
    ensures ModelTail(s.actors[other].process) == 0 && BatchTail(s.actors[other].process) == 0
  {
    assert !s.actors[other].process.Live();
  }

  lemma StepStaysWithinTheTail(cfg: Config, s: State, m: Move, calls: nat, batches: nat)
    requires Inv(cfg, s) && m.Act? && Enabled(s, m) && TailWithin(s, s.actors[m.pid].id, calls, batches)
    ensures TailWithin(Perform(cfg, s, m), s.actors[m.pid].id, calls, batches)
    ensures Perform(cfg, s, m).cells[s.actors[m.pid].id].task == s.cells[s.actors[m.pid].id].task
    ensures Commits(Perform(cfg, s, m).cells[s.actors[m.pid].id].log) == Commits(s.cells[s.actors[m.pid].id].log)
  {
    hide CellOk, ProcessOk;
    var Actor(id, p) := s.actors[m.pid];
    var c, t := s.cells[id], Perform(cfg, s, m);
    ActorAndCell(cfg, s, m.pid);
    DecidedTasksStay(cfg, c, p, m.input);
    StepsComeOutOfTheTail(cfg, c, p, m.input);
    assert t.cells[id] == Advance(cfg, c, p, m.input).0;
    forall pid | pid in t.actors && t.actors[pid].id == id
      ensures ModelCalls(t.cells[id].log) + ModelTail(t.actors[pid].process) <= calls
      ensures ToolBatches(t.cells[id].log) + BatchTail(t.actors[pid].process) <= batches
    {
      if pid != m.pid && p.Live() {
        OthersHaveNoTail(cfg, s, m.pid, pid);
      }
    }
  }

  lemma MoveStaysWithinTheTail(cfg: Config, s: State, m: Move, id: TaskId, calls: nat, batches: nat)
    requires Inv(cfg, s) && Enabled(s, m) && TailWithin(s, id, calls, batches)
    ensures TailWithin(Perform(cfg, s, m), id, calls, batches)
    ensures Perform(cfg, s, m).cells[id].task == s.cells[id].task
    ensures Commits(Perform(cfg, s, m).cells[id].log) == Commits(s.cells[id].log)
  {
    hide CellOk, ProcessOk;
    if m.Act? && s.actors[m.pid].id == id {
      StepStaysWithinTheTail(cfg, s, m, calls, batches);
    }
  }

  lemma {:induction false} StaysWithinTheTail(
      cfg: Config, s: State, moves: seq<Move>, id: TaskId, calls: nat, batches: nat)
    requires Inv(cfg, s) && Legal(cfg, s, moves) && TailWithin(s, id, calls, batches)
    ensures var t := After(cfg, s, moves);
            && TailWithin(t, id, calls, batches)
            && t.cells[id].task == s.cells[id].task
            && Commits(t.cells[id].log) == Commits(s.cells[id].log)
    decreases |moves|
  {
    if moves != [] {
      MoveStaysWithinTheTail(cfg, s, moves[0], id, calls, batches);
      InvIsInductive(cfg, s, moves[0]);
      StaysWithinTheTail(cfg, Perform(cfg, s, moves[0]), moves[1..], id, calls, batches);
    }
  }

  // Cancellation wins: from the moment it is stored, whatever anybody does next,
  // the task stays as it is, nothing more is committed, and at most one more model
  // call and one more tool batch are started on it.
  lemma CancellationWins(cfg: Config, before: seq<Move>, moves: seq<Move>, id: TaskId)
    requires cfg.Valid() && Legal(cfg, EMPTY, before) && Legal(cfg, Reached(cfg, before), moves)
    requires id in Reached(cfg, before).cells && Reached(cfg, before).cells[id].task.status == Cancelled
    ensures var s := Reached(cfg, before);
            var t := After(cfg, s, moves);
            && id in t.cells
            && t.cells[id].task == s.cells[id].task
            && Commits(t.cells[id].log) == Commits(s.cells[id].log)
            && ModelCalls(t.cells[id].log) <= ModelCalls(s.cells[id].log) + 1
            && ToolBatches(t.cells[id].log) <= ToolBatches(s.cells[id].log) + 1
  {
    hide CellOk, ProcessOk, Inv, Perform, Commits, ModelCalls, ToolBatches;
    ReachedIsOk(cfg, before);
    var s := Reached(cfg, before);
    StaysWithinTheTail(cfg, s, moves, id, ModelCalls(s.cells[id].log) + 1, ToolBatches(s.cells[id].log) + 1);
  }

  // --- The driver itself comes back ------------------------------------------------------------

  // How many steps the moves let one process take; none of them kills it.
  function StepsOf(moves: seq<Move>, pid: nat): nat {
    if moves == [] then 0
    else (if moves[0].Act? && moves[0].pid == pid then 1 else 0) + StepsOf(moves[1..], pid)
  }

  predicate Survives(moves: seq<Move>, pid: nat) {
    forall i | 0 <= i < |moves| && moves[i].Act? && moves[i].pid == pid :: !moves[i].input.Crash?
  }

  // Within this many steps of its own the process has returned the task, unsettled.
  ghost predicate ReturnsWithin(p: Process, task: AgentTask, steps: int) {
    if p.Live() then Distance(p) <= steps
    else p.Returned? && p.ending != Settled && p.result.task == task
  }

  lemma NineIsFarEnough(p: Process)
    requires p.Live()
    ensures 1 <= Distance(p) <= 9
  {}

  lemma ReturnedIsReturned(cfg: Config, c: Cell, p: Process, input: Input)
    requires p.Returned? && InputFits(p, input) && !input.Crash?
    ensures Advance(cfg, c, p, input) == (c, p)
  {}

  lemma MoveBringsTheReturnNearer(cfg: Config, s: State, m: Move, pid: nat, steps: int)
    requires Inv(cfg, s) && Enabled(s, m) && (m.Act? && m.pid == pid ==> !m.input.Crash?)
    requires pid in s.actors && s.actors[pid].id in s.cells
    requires Terminal(s.cells[s.actors[pid].id].task.status)
    requires ReturnsWithin(s.actors[pid].process, s.cells[s.actors[pid].id].task, steps)
    ensures var t := Perform(cfg, s, m);
            && pid in t.actors && t.actors[pid].id == s.actors[pid].id
            && ReturnsWithin(t.actors[pid].process, s.cells[s.actors[pid].id].task,
                             if m.Act? && m.pid == pid then steps - 1 else steps)
  {
    hide CellOk, ProcessOk, Advance, Distance;
    if m.Act? && m.pid == pid {
      ActorAndCell(cfg, s, pid);
      if s.actors[pid].process.Live() {
        DriversReturn(cfg, s.cells[s.actors[pid].id], s.actors[pid].process, m.input);
      } else {
        ReturnedIsReturned(cfg, s.cells[s.actors[pid].id], s.actors[pid].process, m.input);
      }
    }
  }

  lemma TerminalTasksStay(cfg: Config, s: State, m: Move, id: TaskId)
    requires Inv(cfg, s) && Enabled(s, m) && id in s.cells && Terminal(s.cells[id].task.status)
    ensures id in Perform(cfg, s, m).cells && Perform(cfg, s, m).cells[id].task == s.cells[id].task
  {
    hide Inv, Perform;
    StepMakesTheCellLater(cfg, s, m, id);
  }

  lemma {:induction false} ReturnComesNearer(cfg: Config, s: State, moves: seq<Move>, pid: nat, steps: int)
    requires Inv(cfg, s) && Legal(cfg, s, moves) && Survives(moves, pid)
    requires pid in s.actors && s.actors[pid].id in s.cells
    requires Terminal(s.cells[s.actors[pid].id].task.status)
    requires ReturnsWithin(s.actors[pid].process, s.cells[s.actors[pid].id].task, steps)
    ensures var t := After(cfg, s, moves);
            && pid in t.actors && t.actors[pid].id == s.actors[pid].id
            && ReturnsWithin(t.actors[pid].process, s.cells[s.actors[pid].id].task, steps - StepsOf(moves, pid))
    decreases |moves|
  {
    hide CellOk, ProcessOk, ReturnsWithin, Inv, Enabled, Later;
    if moves != [] {
      var m := moves[0];
      MoveBringsTheReturnNearer(cfg, s, m, pid, steps);
      InvIsInductive(cfg, s, m);
      TerminalTasksStay(cfg, s, m, s.actors[pid].id);
      ReturnComesNearer(cfg, Perform(cfg, s, m), moves[1..], pid, if m.Act? && m.pid == pid then steps - 1 else steps);
    }
  }

  // From the moment a cancellation is stored, whatever everybody else does, nine
  // steps of its own bring a live driver back to its caller, with nothing settled
  // and the cancelled task in hand.
  lemma CancelledRunsReturn(cfg: Config, before: seq<Move>, moves: seq<Move>, pid: nat)
    requires cfg.Valid() && Legal(cfg, EMPTY, before) && Legal(cfg, Reached(cfg, before), moves)
    requires var s := Reached(cfg, before);
             && pid in s.actors && s.actors[pid].process.Live() && s.actors[pid].id in s.cells
             && s.cells[s.actors[pid].id].task.status == Cancelled
    requires Survives(moves, pid) && StepsOf(moves, pid) >= 9
    ensures var s := Reached(cfg, before);
            var t := After(cfg, s, moves);
            && pid in t.actors && t.actors[pid].process.Returned?
            && t.actors[pid].process.ending != Settled
            && t.actors[pid].process.result.task == s.cells[s.actors[pid].id].task
  {
    hide CellOk, ProcessOk, Inv, Advance, Perform, Distance;
    ReachedIsOk(cfg, before);
    NineIsFarEnough(Reached(cfg, before).actors[pid].process);
    ReturnComesNearer(cfg, Reached(cfg, before), moves, pid, 9);
    if After(cfg, Reached(cfg, before), moves).actors[pid].process.Live() {
      NineIsFarEnough(After(cfg, Reached(cfg, before), moves).actors[pid].process);
    }
  }
}
