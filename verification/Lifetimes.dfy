/** How long a task can live: what bounds its history and its model calls, and what
    does not. */
module Lifetimes {
  import opened Wrappers
  import opened Messages
  import opened Tasks
  import opened Repository
  import opened Registry
  import opened RunLogic
  import opened RunSemantics
  import opened Protocol
  import opened ProtocolInvariant
  import opened ProtocolTheorems
  import opened SoloRuns

  // --- Every start but the first is a restart -------------------------------------------------

  // Winning starts of a task that was not pending any more.
  function Restarts(log: seq<Event>): nat {
    if log == [] then 0 else
    var e := log[|log| - 1];
    Restarts(log[..|log| - 1]) + if e.Committed? && e.intent.Start? && e.before.status != Pending then 1 else 0
  }

  lemma RestartsInTheLog(log: seq<Event>, e: Event)
    ensures Restarts(log + [e])
            == Restarts(log) + if e.Committed? && e.intent.Start? && e.before.status != Pending then 1 else 0
  {
    assert (log + [e])[..|log|] == log;
  }

  lemma {:induction false} NoRestarts(log: seq<Event>)
    ensures Restarts(log) == 0
            <==> forall i | 0 <= i < |log| && log[i].Committed?
                && log[i].intent.Start? :: log[i].before.status == Pending
  {
    if log != [] {
      var front := log[..|log| - 1];
      NoRestarts(front);
      assert forall i | 0 <= i < |front| :: log[i] == front[i];
    }
  }

  predicate StartsAddUp(log: seq<Event>) {
    Starts(log) == Restarts(log) + if Starts(log) == 0 then 0 else 1
  }

  lemma LoggingAddsUp(log: seq<Event>, e: Event)
    requires StartsAddUp(log) && !e.Committed?
    ensures StartsAddUp(log + [e])
  {
    LoggingInTheLog(0, log, e);
    RestartsInTheLog(log, e);
  }

  // A start adds up if it is the first and finds the task pending, or neither.
  lemma CommitAddsUp(log: seq<Event>, e: Event)
    requires StartsAddUp(log) && e.Committed?
    requires e.intent.Start? ==> (Starts(log) == 0 <==> e.before.status == Pending)
    ensures StartsAddUp(log + [e])
  {
    CommitInTheLog(0, log, e);
    RestartsInTheLog(log, e);
  }

  lemma StartableTasks(cfg: Config, c: Cell)
    requires CellOk(cfg, c)
    ensures Running in Allowed(c.task.status) ==> (Starts(c.log) == 0 <==> c.task.status == Pending)
  {
    hide CheckpointOk, CommitsOk, ApprovalsOk, BatchesOk, RequestsOk, PolicyOk, LifecyclePath;
  }

  lemma StepAddsUp(cfg: Config, c: Cell, p: Process, input: Input)
    requires cfg.Valid() && CellOk(cfg, c) && ProcessOk(cfg, c, p) && InputFits(p, input)
    requires StartsAddUp(c.log)
    ensures StartsAddUp(Advance(cfg, c, p, input).0.log)
  {
    hide CellOk, ProcessOk, Advance, StartsAddUp, Starts;
    StepOnTheTask(cfg, c, p, input);
    var cell := Advance(cfg, c, p, input).0;
    if p.Writing? && cell.log == c.log + [Committed(p.intent, c.task, p.updated)] {
      assert cell.log[|c.log|].Committed?;
      StartableTasks(cfg, c);
      CommitAddsUp(c.log, Committed(p.intent, c.task, p.updated));
    } else if cell != c {
      var e :| cell.log == c.log + [e] && !e.Committed?;
      LoggingAddsUp(c.log, e);
    }
  }

  lemma MoveAddsUp(cfg: Config, s: State, m: Move)
    requires Inv(cfg, s) && Enabled(s, m)
    requires forall id | id in s.cells :: StartsAddUp(s.cells[id].log)
    ensures forall id | id in Perform(cfg, s, m).cells :: StartsAddUp(Perform(cfg, s, m).cells[id].log)
  {
    hide CellOk, ProcessOk, Advance;
    if m.Act? && s.actors[m.pid].id in s.cells {
      ActorAndCell(cfg, s, m.pid);
      StepAddsUp(cfg, s.cells[s.actors[m.pid].id], s.actors[m.pid].process, m.input);
    }
  }

  lemma {:induction false} MovesAddUp(cfg: Config, s: State, moves: seq<Move>)
    requires Inv(cfg, s) && Legal(cfg, s, moves)
    requires forall id | id in s.cells :: StartsAddUp(s.cells[id].log)
    ensures forall id | id in After(cfg, s, moves).cells :: StartsAddUp(After(cfg, s, moves).cells[id].log)
    decreases |moves|
  {
    hide Inv, Perform, Enabled, StartsAddUp;
    if moves != [] {
      MoveAddsUp(cfg, s, moves[0]);
      InvIsInductive(cfg, s, moves[0]);
      MovesAddUp(cfg, Perform(cfg, s, moves[0]), moves[1..]);
    }
  }

  // A task is started once, exactly when no winning start found it under way; and
  // each restart is worth one more step budget.
  lemma RestartsAreWhatALifeCosts(cfg: Config, moves: seq<Move>, id: TaskId)
    requires cfg.Valid() && Legal(cfg, EMPTY, moves) && id in Reached(cfg, moves).cells
    ensures var c := Reached(cfg, moves).cells[id];
            && (Starts(c.log) <= 1
                <==> forall i | 0 <= i < |c.log| && c.log[i].Committed? && c.log[i].intent.Start? ::
                       c.log[i].before.status == Pending)
            && Starts(c.log) <= Restarts(c.log) + 1
            && ModelCalls(c.log) <= cfg.maxSteps * (Restarts(c.log) + 1)
            && c.task.version <= 2 * (cfg.maxSteps * (Restarts(c.log) + 1)) + 3
  {
    hide CellOk, Inv, After, Legal;
    var c := Reached(cfg, moves).cells[id];
    InvInitially(cfg);
    MovesAddUp(cfg, EMPTY, moves);
    NoRestarts(c.log);
    BudgetOverAWholeLife(cfg, moves, id);
    StoredHistoriesArePaths(cfg, moves, id);
    assert cfg.maxSteps * Starts(c.log) <= cfg.maxSteps * (Restarts(c.log) + 1);
  }

  // --- The documented precondition ---------------------------------------------------------------

  // A call of `run` reads its task and finds it waiting for approval.
  predicate RunFindsPaused(s: State, m: Move) {
    && m.Act? && !m.input.Crash? && m.pid in s.actors && s.actors[m.pid].process == Loading(Start)
    && s.actors[m.pid].id in s.cells && s.cells[s.actors[m.pid].id].task.status == AwaitingApproval
  }

  // `run` is for pending tasks: no call of it may find its task waiting for
  // approval when it reads it. (The lifecycle table refuses every other status.)
  predicate RunsFindNothingPaused(cfg: Config, s: State, moves: seq<Move>)
    requires Legal(cfg, s, moves)
    decreases |moves|
  {
    moves == []
    || (!RunFindsPaused(s, moves[0]) && RunsFindNothingPaused(cfg, Perform(cfg, s, moves[0]), moves[1..]))
  }

  ghost predicate NothingRestarts(s: State) {
    && (forall id | id in s.cells :: Restarts(s.cells[id].log) == 0)
    && (forall pid | pid in s.actors && s.actors[pid].process.Writing? && s.actors[pid].process.intent.Start? ::
          s.actors[pid].process.current.status != AwaitingApproval)
  }

  // A write that is about to be made goes back to the read before it.
  lemma WritesFollowReads(cfg: Config, c: Cell, p: Process, input: Input)
    requires InputFits(p, input)
    ensures var next := Advance(cfg, c, p, input).1;
            next.Writing? ==> !input.Crash? && p.Loading? && p.intent == next.intent && next.current == c.task
  {
    hide AfterReply;
  }

  lemma StepRestartsNothing(cfg: Config, c: Cell, p: Process, input: Input)
    requires cfg.Valid() && CellOk(cfg, c) && ProcessOk(cfg, c, p) && InputFits(p, input)
    requires Restarts(c.log) == 0
    requires p.Writing? && p.intent.Start? ==> p.current.status != AwaitingApproval
    ensures Restarts(Advance(cfg, c, p, input).0.log) == 0
  {
    hide CellOk, ProcessOk, Advance, Restarts;
    StepOnTheTask(cfg, c, p, input);
    var cell := Advance(cfg, c, p, input).0;
    if p.Writing? && cell.log == c.log + [Committed(p.intent, c.task, p.updated)] {
      assert cell.log[|c.log|].Committed?;
      RestartsInTheLog(c.log, Committed(p.intent, c.task, p.updated));
    } else if cell != c {
      var e :| cell.log == c.log + [e] && !e.Committed?;
      RestartsInTheLog(c.log, e);
    }
  }

  lemma MoveRestartsNothing(cfg: Config, s: State, m: Move)
    requires Inv(cfg, s) && Enabled(s, m) && !RunFindsPaused(s, m) && NothingRestarts(s)
    ensures NothingRestarts(Perform(cfg, s, m))
  {
    hide CellOk, ProcessOk, Advance;
    if m.Act? && s.actors[m.pid].id in s.cells {
      ActorAndCell(cfg, s, m.pid);
      StepRestartsNothing(cfg, s.cells[s.actors[m.pid].id], s.actors[m.pid].process, m.input);
      WritesFollowReads(cfg, s.cells[s.actors[m.pid].id], s.actors[m.pid].process, m.input);
    }
  }

  lemma {:induction false} MovesRestartNothing(cfg: Config, s: State, moves: seq<Move>)
    requires Inv(cfg, s) && Legal(cfg, s, moves) && RunsFindNothingPaused(cfg, s, moves) && NothingRestarts(s)
    ensures NothingRestarts(After(cfg, s, moves))
    decreases |moves|
  {
    hide Inv, Perform, Enabled, NothingRestarts, RunFindsPaused;
    if moves != [] {
      MoveRestartsNothing(cfg, s, moves[0]);
      InvIsInductive(cfg, s, moves[0]);
      MovesRestartNothing(cfg, Perform(cfg, s, moves[0]), moves[1..]);
    }
  }

  // Under the documented precondition a task is started at most once, and its
  // whole life, however often it is paused and approved, fits in one step budget.
  lemma OneBudgetIfRunsFindNothingPaused(cfg: Config, moves: seq<Move>, id: TaskId)
    requires cfg.Valid() && Legal(cfg, EMPTY, moves) && id in Reached(cfg, moves).cells
    requires RunsFindNothingPaused(cfg, EMPTY, moves)
    ensures var c := Reached(cfg, moves).cells[id];
            && Starts(c.log) <= 1
            && ModelCalls(c.log) <= cfg.maxSteps
            && c.task.version <= 2 * cfg.maxSteps + 3
  {
    InvInitially(cfg);
    MovesRestartNothing(cfg, EMPTY, moves);
    RestartsAreWhatALifeCosts(cfg, moves, id);
  }

  // --- Without it ----------------------------------------------------------------------------------

  // A model that always asks for the same tool.
  function Insistent(name: string): Environment<()> {
    Environment(
      (w: (), ms: seq<Message>) => ((), Replied(Completion("", ToolUse, NO_USAGE, [ToolCall("1", name, map[])]))),
      (w: (), calls: seq<ToolCall>) => ((), (i: nat) => TimedOut),
      (w: ()) => None)
  }

  // If that tool needs approval, each start pauses at once and costs two versions.
  lemma InsistentRunsPause(cfg: Config, name: string, s: Sys<()>, id: TaskId)
    requires cfg.Valid() && Keyed(s.tasks) && id in s.tasks
    requires s.tasks[id].status == Pending || s.tasks[id].status == AwaitingApproval
    requires name in cfg.tools && cfg.tools[name].risk.Rank() > cfg.autoApproveUpTo.Rank()
    ensures Sane(Insistent(name))
    ensures var (ended, outcome) := Starting(cfg, Insistent(name), s, id);
            && outcome.Success? && id in ended.tasks
            && ended.tasks[id].status == AwaitingApproval
            && ended.tasks[id].version == s.tasks[id].version + 2
  {
    var call := ToolCall("1", name, map[]);
    var completion := Completion("", ToolUse, NO_USAGE, [call]);
    assert cfg.NeedsApproval(completion.toolCalls[0]);
    assert cfg.TripsTheGate(completion.toolCalls);
    var env := Insistent(name);
    var r := Transitioned(s, id, Running, RunStarted, None, None);
    var running, run := s.Committing(r), FreshRun(s.tasks[id].goal);
    var (asked, reply) := AfterAsking(env, running, id, run.messages);
    assert reply == Replied(completion) && asked.tasks == running.tasks;
    var (next, decision) := AfterReply(cfg, run.(steps := 1), reply);
    assert decision.Settle? && decision.status == AwaitingApproval;
    assert Driving(cfg, env, running, id, run)
        == Finishing(asked, id, next, AwaitingApproval, decision.reason, decision.output, decision.checkpoint);
  }

  // The lifecycle table lets `run` restart a paused task on a fresh budget, and
  // then nothing bounds a task's life: wherever some tool needs approval, every
  // version is exceeded in some run.
  lemma {:induction false} RestartingAPausedTaskHasNoBound(cfg: Config, name: string, n: nat) returns (moves: seq<Move>)
    requires cfg.Valid()
    requires name in cfg.tools && cfg.tools[name].risk.Rank() > cfg.autoApproveUpTo.Rank()
    ensures Legal(cfg, EMPTY, moves)
    ensures var s := Reached(cfg, moves);
            && 0 in s.cells
            && s.cells[0].task.version == 1 + 2 * n
            && s.cells[0].task.status == (if n == 0 then Pending else AwaitingApproval)
  {
    hide Inv, Starting, Advance;
    if n == 0 {
      moves := [CreateTask(0, "", "", 0)];
      OneMove(cfg, EMPTY, moves[0]);
    } else {
      var front := RestartingAPausedTaskHasNoBound(cfg, name, n - 1);
      var system := Reached(cfg, front);
      StoreIsKeyed(cfg, front);
      var s := Sys(system.Store(), (), 0, [], []);
      InsistentRunsPause(cfg, name, s, 0);
      var rest, _, _ := RunIsAnInterleaving(cfg, Insistent(name), s, 0, system);
      AfterInSequence(cfg, EMPTY, front, rest);
      moves := front + rest;
      assert Reached(cfg, moves).Store()[0] == Reached(cfg, moves).cells[0].task;
    }
  }

  lemma StoreIsKeyed(cfg: Config, moves: seq<Move>)
    requires cfg.Valid() && Legal(cfg, EMPTY, moves)
    ensures Keyed(Reached(cfg, moves).Store())
  {
    hide CellOk, ProcessOk;
    ReachedIsOk(cfg, moves);
  }

  // --- Where nothing needs approval ------------------------------------------------------------------

  predicate NothingNeedsApproval(cfg: Config) {
    forall name | name in cfg.tools :: cfg.tools[name].risk.Rank() <= cfg.autoApproveUpTo.Rank()
  }

  lemma NothingPauses(cfg: Config, c: Cell)
    requires CellOk(cfg, c) && NothingNeedsApproval(cfg)
    ensures c.task.status != AwaitingApproval
  {
    hide CommitsOk, ApprovalsOk, BatchesOk, RequestsOk, BudgetOk, PolicyOk, LifecyclePath;
    assert forall calls :: !cfg.TripsTheGate(calls);
  }

  predicate Brief(t: AgentTask) {
    |t.history| <= if t.status == Pending then 0 else if t.status == Running then 1 else 2
  }

  lemma MoveKeepsLivesBrief(cfg: Config, s: State, m: Move)
    requires Inv(cfg, s) && Enabled(s, m) && NothingNeedsApproval(cfg)
    requires forall id | id in s.cells :: Brief(s.cells[id].task)
    ensures forall id | id in Perform(cfg, s, m).cells :: Brief(Perform(cfg, s, m).cells[id].task)
  {
    hide CellOk, ProcessOk, Advance;
    if m.Act? && s.actors[m.pid].id in s.cells {
      var c := s.cells[s.actors[m.pid].id];
      ActorAndCell(cfg, s, m.pid);
      NothingPauses(cfg, c);
      OnlyWritesChangeTheTask(cfg, c, s.actors[m.pid].process, m.input);
      AdvanceIsOk(cfg, c, s.actors[m.pid].process, m.input);
      NothingPauses(cfg, Advance(cfg, c, s.actors[m.pid].process, m.input).0);
    }
  }

  lemma {:induction false} MovesKeepLivesBrief(cfg: Config, s: State, moves: seq<Move>)
    requires Inv(cfg, s) && Legal(cfg, s, moves) && NothingNeedsApproval(cfg)
    requires forall id | id in s.cells :: Brief(s.cells[id].task)
    ensures forall id | id in After(cfg, s, moves).cells :: Brief(After(cfg, s, moves).cells[id].task)
    decreases |moves|
  {
    hide Inv, Perform, Enabled, Brief, NothingNeedsApproval;
    if moves != [] {
      MoveKeepsLivesBrief(cfg, s, moves[0]);
      InvIsInductive(cfg, s, moves[0]);
      MovesKeepLivesBrief(cfg, Perform(cfg, s, moves[0]), moves[1..]);
    }
  }

  ghost predicate VersionsStayWithin(cfg: Config, bound: nat) {
    forall moves, id | Legal(cfg, EMPTY, moves) && id in Reached(cfg, moves).cells ::
      Reached(cfg, moves).cells[id].task.version <= bound
  }

  // Exactly: whoever calls what when, versions have a bound if and only if no tool
  // is above the approval threshold, and then the bound is three.
  lemma VersionsAreBoundedIffNothingNeedsApproval(cfg: Config)
    requires cfg.Valid()
    ensures NothingNeedsApproval(cfg) <==> exists bound :: VersionsStayWithin(cfg, bound)
    ensures NothingNeedsApproval(cfg) ==> VersionsStayWithin(cfg, 3)
  {
    hide Inv, CellOk, After, Legal;
    if NothingNeedsApproval(cfg) {
      forall moves, id | Legal(cfg, EMPTY, moves) && id in Reached(cfg, moves).cells
        ensures Reached(cfg, moves).cells[id].task.version <= 3
      {
        InvInitially(cfg);
        MovesKeepLivesBrief(cfg, EMPTY, moves);
        StoredHistoriesArePaths(cfg, moves, id);
      }
      assert VersionsStayWithin(cfg, 3);
    } else {
      var name :| name in cfg.tools && cfg.tools[name].risk.Rank() > cfg.autoApproveUpTo.Rank();
      forall bound: nat
        ensures !VersionsStayWithin(cfg, bound)
      {
        var moves := RestartingAPausedTaskHasNoBound(cfg, name, bound);
        assert Reached(cfg, moves).cells[0].task.version > bound;
      }
    }
  }

  // --- Checking before the call is not enough ----------------------------------------------------------

  predicate StartsNothing(moves: seq<Move>) {
    forall i | 0 <= i < |moves| && moves[i].Spawn? :: moves[i].process != Loading(Start)
  }

  lemma NothingTwice(first: seq<Move>, second: seq<Move>)
    requires StartsNothing(first) && forall i | 0 <= i < |second| :: second[i].Act?
    ensures StartsNothing(first + second)
  {}

  lemma {:induction false} HappeningsStartNothing(pid: nat, id: TaskId, hs: seq<Happening>, helper: nat)
    ensures StartsNothing(MovesOfAll(pid, id, hs, helper))
  {
    if hs != [] {
      HappeningsStartNothing(pid, id, hs[1..], helper + 1);
      assert StartsNothing(MovesOf(pid, id, hs[0], helper));
    }
  }

  lemma TwoCallersReady(cfg: Config, calls: seq<Move>)
    requires calls == [CreateTask(0, "", "", 0), Spawn(0, 0, Loading(Start)), Spawn(1, 0, Loading(Start))]
    ensures Legal(cfg, EMPTY, calls)
    ensures Reached(cfg, calls) == State(map[0 := Cell(AgentTask.Create(0, "", "", 0), [])],
                                         map[0 := Actor(0, Loading(Start)), 1 := Actor(0, Loading(Start))])
  {
    var created := State(map[0 := Cell(AgentTask.Create(0, "", "", 0), [])], map[]);
    var once := created.(actors := map[0 := Actor(0, Loading(Start))]);
    OneMove(cfg, EMPTY, calls[0]);
    OneMove(cfg, created, calls[1]);
    OneMove(cfg, once, calls[2]);
    AfterInSequence(cfg, EMPTY, [calls[0]], [calls[1]]);
    AfterInSequence(cfg, EMPTY, [calls[0]] + [calls[1]], [calls[2]]);
    assert calls == [calls[0]] + [calls[1]] + [calls[2]];
  }

  // A caller of `run` that finds a paused task restarts it.
  lemma APausedTaskIsRestarted(cfg: Config, s: State, pid: nat)
    requires pid in s.actors && s.actors[pid] == Actor(0, Loading(Start))
    requires 0 in s.cells && s.cells[0].task.status == AwaitingApproval
    ensures var moves := [Act(pid, Go(0))] + [Act(pid, Go(0))];
            && Legal(cfg, s, moves)
            && 0 in After(cfg, s, moves).cells && Restarts(After(cfg, s, moves).cells[0].log) > 0
  {
    var c := s.cells[0];
    var updated := c.task.Moved(Running, RunStarted, None, 0);
    var read := s.(actors := s.actors[pid := Actor(0, Writing(Start, c.task, updated))]);
    assert s.cells[0 := c] == s.cells;
    assert Perform(cfg, s, Act(pid, Go(0))) == read;
    OneMove(cfg, s, Act(pid, Go(0)));
    OneMove(cfg, read, Act(pid, Go(0)));
    AfterInSequence(cfg, s, [Act(pid, Go(0))], [Act(pid, Go(0))]);
    RestartsInTheLog(c.log, Committed(Start, c.task, updated));
  }

  // Two callers may both see the task pending before they call `run`, and the
  // second still restart it: it reads again inside the call, after the first has
  // paused. So the precondition has to hold at that read.
  lemma CheckingBeforeTheCallIsNotEnough(cfg: Config, name: string) returns (calls: seq<Move>, rest: seq<Move>)
    requires cfg.Valid()
    requires name in cfg.tools && cfg.tools[name].risk.Rank() > cfg.autoApproveUpTo.Rank()
    ensures calls == [CreateTask(0, "", "", 0), Spawn(0, 0, Loading(Start)), Spawn(1, 0, Loading(Start))]
    ensures Legal(cfg, EMPTY, calls) && Legal(cfg, EMPTY, calls + rest) && StartsNothing(rest)
    ensures 0 in Reached(cfg, calls).cells && Reached(cfg, calls).cells[0].task.status == Pending
    ensures 0 in Reached(cfg, calls + rest).cells && Restarts(Reached(cfg, calls + rest).cells[0].log) > 0
  {
    hide Starting, Inv, Fit, Alone, MovesOfAll, Perform, Advance, Legal, After, Sane, Restarts, StartsNothing;
    calls := [CreateTask(0, "", "", 0), Spawn(0, 0, Loading(Start)), Spawn(1, 0, Loading(Start))];
    TwoCallersReady(cfg, calls);
    var ready := Reached(cfg, calls);
    var s := Sys(ready.Store(), (), 0, [], []);
    InsistentRunsPause(cfg, name, s, 0);
    var hs, _ := StartingStepByStep(cfg, Insistent(name), s, 0, ready.cells[0]);
    AloneInTheSystem(cfg, ready, 0, 0, Loading(Start), hs, 2);
    HappeningsStartNothing(0, 0, hs, 2);
    var first, second := MovesOfAll(0, 0, hs, 2), [Act(1, Go(0))] + [Act(1, Go(0))];
    APausedTaskIsRestarted(cfg, After(cfg, ready, first), 1);
    AfterInSequence(cfg, ready, first, second);
    rest := first + second;
    NothingTwice(first, second);
    AfterInSequence(cfg, EMPTY, calls, rest);
  }
}
