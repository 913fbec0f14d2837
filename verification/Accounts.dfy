/** The counters of a run are an account of what was done since it was started: its
    model calls, the tool calls it ran and the usage it was told, through any
    number of pauses, up to the result handed back. */
module Accounts {
  import opened Messages
  import opened Tasks
  import opened RunLogic
  import opened Protocol
  import opened ProtocolInvariant
  import opened ProtocolTheorems
  import opened Outcomes

  datatype Counters = Counters(steps: int, toolCalls: int, usage: TokenUsage)

  // Tool calls run since the last time somebody started a run on the task.
  function CallsRunInRun(log: seq<Event>): nat {
    if log == [] then 0 else
    var e := log[|log| - 1];
    if e.Committed? && e.intent.Start? then 0
    else CallsRunInRun(log[..|log| - 1]) + if e.Ran? then |e.calls| else 0
  }

  // What the log says the current run has spent.
  function Spent(log: seq<Event>): Counters {
    Counters(CallsInRun(log), CallsRunInRun(log), UsageInRun(log))
  }

  lemma SpentInTheLog(log: seq<Event>, e: Event)
    ensures Spent(log + [e])
            == if e.Committed? && e.intent.Start? then Counters(0, 0, NO_USAGE)
               else
                 var s := Spent(log);
                 Counters(s.steps + (if e.Asked? then 1 else 0),
                          s.toolCalls + (if e.Ran? then |e.calls| else 0),
                          if e.Heard? then s.usage.Plus(e.completion.usage) else s.usage)
  {
    assert (log + [e])[..|log|] == log;
  }

  // --- The invariant -------------------------------------------------------------------------

  // What a driver carries, set against the log: a step it is about to spend is
  // counted already, the calls it is waiting for are not yet.
  function Carried(p: Process): Counters
    requires p.Live()
  {
    var run := p.TheDriver().run;
    Counters(run.steps - (if p.Asking? then 1 else 0), run.toolCalls + (if p.InTools? then |p.calls| else 0), run.usage)
  }

  function Held(checkpoint: RunCheckpoint): Counters {
    Counters(checkpoint.steps, checkpoint.toolCalls, checkpoint.usage)
  }

  function Reported(r: RunResult): Counters {
    Counters(r.steps, r.toolCalls, r.usage)
  }

  predicate IntentCounts(log: seq<Event>, intent: Intent) {
    intent.Finish? && intent.checkpoint.Some? ==> Held(intent.checkpoint.value) == Spent(log)
  }

  predicate TaskCounts(c: Cell) {
    c.task.checkpoint.Some? ==> Held(c.task.checkpoint.value) == Spent(c.log)
  }

  // The commit a settled result speaks of.
  predicate SettledAt(log: seq<Event>, i: nat, r: RunResult) {
    && i < |log| && log[i].Committed? && log[i].intent.Finish? && log[i].after == r.task
    && r.output == log[i].intent.output && r.detail == log[i].intent.reason
    && r.pendingCalls == (if r.task.checkpoint.Some? then r.task.checkpoint.value.PendingCalls() else [])
    && Reported(r) == Spent(log[..i])
  }

  ghost predicate ResultCounts(c: Cell, r: RunResult, ending: Ending) {
    if ending == Settled then exists i :: SettledAt(c.log, i, r)
    else r.task == c.task && Terminal(c.task.status) && Reported(r) == Spent(c.log)
  }

  ghost predicate ProcessCounts(c: Cell, p: Process) {
    && (p.Live() ==> Carried(p) == Spent(c.log))
    && ((p.Loading? || p.Writing?) ==> IntentCounts(c.log, p.intent))
    && (p.Returned? ==> ResultCounts(c, p.result, p.ending))
  }

  // --- One step of one process -----------------------------------------------------------------

  // A run told so on its way out speaks of a task nobody will touch again.
  predicate OutOfTheRace(p: Process) {
    p.Returned? && p.ending != Settled
  }

  lemma AskingCounts(cfg: Config, c: Cell, d: Driver, now: int)
    requires ProcessCounts(c, Asking(d))
    ensures var (cell, next) := Advance(cfg, c, Asking(d), Go(now)); ProcessCounts(cell, next)
  {
    hide Spent;
    SpentInTheLog(c.log, Asked(d.run.messages));
  }

  lemma ReplyCounts(cfg: Config, c: Cell, d: Driver, reply: ModelReply)
    requires ProcessCounts(c, InModel(d)) && reply.Valid()
    ensures var (cell, next) := Advance(cfg, c, InModel(d), Reply(reply)); ProcessCounts(cell, next)
  {
    hide Spent;
    if reply.Replied? {
      SpentInTheLog(c.log, Heard(reply.completion));
    }
  }

  lemma RunningCounts(cfg: Config, c: Cell, p: Process, now: int)
    requires p.BeforeTools? && ProcessCounts(c, p)
    ensures var (cell, next) := Advance(cfg, c, p, Go(now)); ProcessCounts(cell, next)
  {
    hide Spent;
    SpentInTheLog(c.log, Ran(p.calls, p.approval));
  }

  lemma ResultsCount(cfg: Config, c: Cell, p: Process, results: seq<ToolResult>)
    requires p.InTools? && Answers(p.calls, results) && ProcessCounts(c, p)
    ensures var (cell, next) := Advance(cfg, c, p, Results(results)); ProcessCounts(cell, next)
  {
    hide Spent;
    SpentInTheLog(c.log, Told(results));
  }

  // A winning write hands on the account, or opens a new one.
  lemma LandingCounts(cfg: Config, c: Cell, intent: Intent, current: AgentTask, updated: AgentTask)
    requires CellOk(cfg, c) && IntentOk(cfg, c, intent) && WriteOk(c, intent, current, updated)
    requires c.task.version == current.version
    requires TaskCounts(c) && ProcessCounts(c, Writing(intent, current, updated))
    ensures TaskCounts(Landed(c, intent, updated))
    ensures ProcessCounts(Landed(c, intent, updated), Won(intent, updated, |c.log|))
  {
    hide CellOk, Resumable, DriverOk, Snapshot, Spent;
    var e := Committed(intent, c.task, updated);
    var landed := Landed(c, intent, updated);
    WinningWriteIsFresh(c, intent, current, updated) by {
      assert WellFormedTask(c.task) by { StoredTasksAreWellFormed(cfg, c); }
    }
    SpentInTheLog(c.log, e);
    if intent.Approve? {
      ApprovalsReleaseWhatIsStored(cfg, c, intent);
    }
    if intent.Finish? {
      assert landed.log[..|c.log|] == c.log;
      var r := Settling(updated, intent.driver.run, intent.reason, intent.output, intent.checkpoint);
      assert SettledAt(landed.log, |c.log|, r);
    }
  }

  lemma StoredTasksAreWellFormed(cfg: Config, c: Cell)
    requires CellOk(cfg, c)
    ensures WellFormedTask(c.task)
  {
    hide CheckpointOk, CommitsOk, ApprovalsOk, BatchesOk, RequestsOk, BudgetOk, PolicyOk, WellFormedTask;
  }

  lemma WritingCounts(cfg: Config, c: Cell, p: Process, now: int)
    requires CellOk(cfg, c) && p.Writing? && ProcessOk(cfg, c, p) && TaskCounts(c) && ProcessCounts(c, p)
    ensures var (cell, next) := Advance(cfg, c, p, Go(now)); TaskCounts(cell) && ProcessCounts(cell, next)
  {
    hide CellOk, ProcessOk, IntentOk, WriteOk, TaskCounts, Won, Spent;
    WritersAreReady(cfg, c, p);
    if c.task.version == p.current.version {
      LandingCounts(cfg, c, p.intent, p.current, p.updated);
      assert Advance(cfg, c, p, Go(now)) == (Landed(c, p.intent, p.updated), Won(p.intent, p.updated, |c.log|));
    }
  }

  // Every other step carries the account on, or reports it.
  lemma QuietCounts(cfg: Config, c: Cell, p: Process, input: Input)
    requires InputFits(p, input) && ProcessCounts(c, p)
    requires input.Crash? || !(p.Asking? || p.InModel? || p.BeforeTools? || p.InTools? || p.Writing?)
    requires p.Reporting? ==> c.task.status == Cancelled && p.ending != Settled
    ensures var (cell, next) := Advance(cfg, c, p, input); cell == c && ProcessCounts(cell, next)
  {
    hide Spent, SettledAt;
  }

  lemma ReportersAreLate(cfg: Config, c: Cell, p: Process)
    requires ProcessOk(cfg, c, p)
    ensures p.Reporting? ==> c.task.status == Cancelled && p.ending != Settled
    ensures p.Live() ==> c.task.status == Running || c.task.status == Cancelled
  {
    hide Resumable, OnToolTurn, AtLoopHead, AskingTheModel, IsApproval;
    assert p.Live() ==> Drives(c.task, p.TheDriver());
  }

  lemma RunningTasksHoldNothing(cfg: Config, c: Cell)
    requires CellOk(cfg, c) && c.task.status != AwaitingApproval
    ensures c.task.checkpoint.None?
  {
    hide CommitsOk, ApprovalsOk, BatchesOk, RequestsOk, BudgetOk, PolicyOk, Resumable, LifecyclePath;
  }

  lemma StepCounts(cfg: Config, c: Cell, p: Process, input: Input)
    requires cfg.Valid() && CellOk(cfg, c) && ProcessOk(cfg, c, p) && InputFits(p, input)
    requires TaskCounts(c) && ProcessCounts(c, p)
    ensures var (cell, next) := Advance(cfg, c, p, input); TaskCounts(cell) && ProcessCounts(cell, next)
  {
    hide CellOk, ProcessOk, ProcessCounts, Advance, Spent;
    ReportersAreLate(cfg, c, p);
    if !input.Crash? && p.Writing? {
      WritingCounts(cfg, c, p, input.now);
    } else {
      OnlyWritesChangeTheTask(cfg, c, p, input);
      if c.task.status != AwaitingApproval {
        RunningTasksHoldNothing(cfg, c);
      }
      match input
      case Crash => QuietCounts(cfg, c, p, input);
      case Reply(reply) => ReplyCounts(cfg, c, p.driver, reply);
      case Results(results) => ResultsCount(cfg, c, p, results);
      case Go(now) =>
        match p
        case Asking(d) => AskingCounts(cfg, c, d, now);
        case BeforeTools(_, _, _) => RunningCounts(cfg, c, p, now);
        case _ => QuietCounts(cfg, c, p, input);
    }
  }

  // --- Everybody else ------------------------------------------------------------------------------

  lemma SettledStaysSettled(log: seq<Event>, e: Event, i: nat, r: RunResult)
    requires SettledAt(log, i, r)
    ensures SettledAt(log + [e], i, r)
  {
    assert (log + [e])[..i] == log[..i];
  }

  // What the step of one process leaves of another's account.
  lemma OthersCount(cfg: Config, c: Cell, p: Process, input: Input, q: Process)
    requires cfg.Valid() && CellOk(cfg, c) && ProcessOk(cfg, c, p) && InputFits(p, input)
    requires ProcessOk(cfg, c, q) && ProcessCounts(c, q) && !(p.Live() && (q.Live() || OutOfTheRace(q)))
    ensures ProcessCounts(Advance(cfg, c, p, input).0, q)
  {
    hide CellOk, ProcessOk, Advance, Spent, SettledAt;
    var cell := Advance(cfg, c, p, input).0;
    StepOnTheTask(cfg, c, p, input);
    ReportersAreLate(cfg, c, q);
    if cell != c {
      var e := cell.log[|c.log|];
      assert cell.log == c.log + [e];
      SpentInTheLog(c.log, e);
      if q.Returned? && q.ending == Settled {
        var i :| SettledAt(c.log, i, q.result);
        SettledStaysSettled(c.log, e, i, q.result);
      }
    }
  }

  // --- Every run -------------------------------------------------------------------------------------

  ghost predicate AllCount(s: State) {
    && (forall id | id in s.cells :: TaskCounts(s.cells[id]))
    && (forall pid | pid in s.actors && s.actors[pid].id in s.cells ::
          ProcessCounts(s.cells[s.actors[pid].id], s.actors[pid].process))
    && (forall p, q | p in s.actors && q in s.actors && s.actors[p].id == s.actors[q].id ::
          !(s.actors[p].process.Live() && OutOfTheRace(s.actors[q].process)))
  }

  // Nobody takes up a task that a late run has reported.
  lemma TheRaceIsOver(cfg: Config, c: Cell, p: Process, input: Input, q: Process)
    requires cfg.Valid() && CellOk(cfg, c) && ProcessOk(cfg, c, p) && InputFits(p, input)
    requires ProcessCounts(c, q) && !(p.Live() && OutOfTheRace(q)) && !(p.Live() && q.Live())
    ensures var next := Advance(cfg, c, p, input).1;
            !(next.Live() && OutOfTheRace(q)) && !(q.Live() && OutOfTheRace(next) && !OutOfTheRace(p))
  {
    hide CellOk, ProcessOk, Spent, SettledAt, AfterReply;
    StepOnTheTask(cfg, c, p, input);
  }

  lemma ActCounts(cfg: Config, s: State, m: Move)
    requires Inv(cfg, s) && m.Act? && Enabled(s, m) && s.actors[m.pid].id in s.cells && AllCount(s)
    ensures AllCount(Perform(cfg, s, m))
  {
    hide CellOk, ProcessOk, Advance, TaskCounts, ProcessCounts, OutOfTheRace;
    var Actor(id, p) := s.actors[m.pid];
    var t := Perform(cfg, s, m);
    ActorAndCell(cfg, s, m.pid);
    StepCounts(cfg, s.cells[id], p, m.input);
    forall pid | pid in t.actors && t.actors[pid].id in t.cells
      ensures ProcessCounts(t.cells[t.actors[pid].id], t.actors[pid].process)
      ensures t.actors[pid].id == id ==>
                && !(t.actors[m.pid].process.Live() && OutOfTheRace(t.actors[pid].process))
                && !(t.actors[pid].process.Live() && OutOfTheRace(t.actors[m.pid].process))
    {
      if t.actors[pid].id == id {
        NobodyIsBoth(t.actors[pid].process);
        if pid != m.pid {
          ActorAndCell(cfg, s, pid);
          OthersCount(cfg, s.cells[id], p, m.input, s.actors[pid].process);
          TheRaceIsOver(cfg, s.cells[id], p, m.input, s.actors[pid].process);
        }
      }
    }
  }

  lemma NobodyIsBoth(p: Process)
    ensures !(p.Live() && OutOfTheRace(p))
  {}

  // Whoever has not read the task yet carries nothing.
  lemma NewcomersCount(c: Cell, p: Process)
    requires p.Initial() || p.Raised? || p.Crashed?
    ensures ProcessCounts(c, p) && !p.Live() && !OutOfTheRace(p)
  {}

  lemma NewTasksCount(cfg: Config, s: State, m: Move)
    requires Inv(cfg, s) && m.CreateTask? && Enabled(s, m) && AllCount(s)
    ensures AllCount(Perform(cfg, s, m))
  {
    hide CellOk, ProcessOk, ProcessCounts, OutOfTheRace;
    var t := Perform(cfg, s, m);
    forall pid | pid in s.actors && s.actors[pid].id == m.id
      ensures ProcessCounts(t.cells[m.id], s.actors[pid].process)
    {
      assert ActorOk(cfg, s, s.actors[pid]);
      NewcomersCount(t.cells[m.id], s.actors[pid].process);
    }
  }

  lemma NewActorsCount(cfg: Config, s: State, m: Move)
    requires m.Spawn? && Enabled(s, m) && AllCount(s)
    ensures AllCount(Perform(cfg, s, m))
  {
    hide ProcessCounts, TaskCounts, OutOfTheRace;
    var t := Perform(cfg, s, m);
    NewcomersCount(Cell(AgentTask.Create(0, "", "", 0), []), m.process);
    forall pid | pid in t.actors && t.actors[pid].id in t.cells
      ensures ProcessCounts(t.cells[t.actors[pid].id], t.actors[pid].process)
    {
      if pid == m.pid {
        NewcomersCount(t.cells[m.id], m.process);
      }
    }
    forall p, q | p in t.actors && q in t.actors && t.actors[p].id == t.actors[q].id
      ensures !(t.actors[p].process.Live() && OutOfTheRace(t.actors[q].process))
    {
      assert p != m.pid ==> p in s.actors && t.actors[p] == s.actors[p];
      assert q != m.pid ==> q in s.actors && t.actors[q] == s.actors[q];
    }
  }

  lemma StrayActorsCount(cfg: Config, s: State, m: Move)
    requires Inv(cfg, s) && m.Act? && Enabled(s, m) && s.actors[m.pid].id !in s.cells && AllCount(s)
    ensures AllCount(Perform(cfg, s, m))
  {
    hide CellOk, ProcessOk, ProcessCounts, TaskCounts;
    assert ActorOk(cfg, s, s.actors[m.pid]);
  }

  lemma MoveCounts(cfg: Config, s: State, m: Move)
    requires Inv(cfg, s) && Enabled(s, m) && AllCount(s)
    ensures AllCount(Perform(cfg, s, m))
  {
    hide CellOk, ProcessOk, Advance, ProcessCounts, TaskCounts, OutOfTheRace;
    match m
    case Act(pid, _) =>
      if s.actors[pid].id in s.cells {
        ActCounts(cfg, s, m);
      } else {
        StrayActorsCount(cfg, s, m);
      }
    case CreateTask(_, _, _, _) => NewTasksCount(cfg, s, m);
    case Spawn(_, _, _) => NewActorsCount(cfg, s, m);
  }

  lemma {:induction false} MovesCount(cfg: Config, s: State, moves: seq<Move>)
    requires Inv(cfg, s) && Legal(cfg, s, moves) && AllCount(s)
    ensures AllCount(After(cfg, s, moves))
    decreases |moves|
  {
    hide Inv, Perform, Enabled, AllCount;
    if moves != [] {
      MoveCounts(cfg, s, moves[0]);
      InvIsInductive(cfg, s, moves[0]);
      MovesCount(cfg, Perform(cfg, s, moves[0]), moves[1..]);
    }
  }

  lemma ReachedCounts(cfg: Config, moves: seq<Move>)
    requires cfg.Valid() && Legal(cfg, EMPTY, moves)
    ensures AllCount(Reached(cfg, moves))
  {
    hide AllCount, Inv, Perform;
    InvInitially(cfg);
    assert AllCount(EMPTY) by {
      NothingCounts();
    }
    MovesCount(cfg, EMPTY, moves);
  }

  lemma NothingCounts()
    ensures AllCount(EMPTY)
  {}

  // --- What it comes to ----------------------------------------------------------------------------------

  // At a pause, however many came before it, the checkpoint carries exactly what
  // the run spent since it was started: its model calls, the tool calls it ran and
  // the usage of every reply. They agree with the conversation it holds.
  lemma PausesCarryTheCounters(cfg: Config, moves: seq<Move>, id: TaskId)
    requires cfg.Valid() && Legal(cfg, EMPTY, moves) && id in Reached(cfg, moves).cells
    requires Reached(cfg, moves).cells[id].task.checkpoint.Some?
    ensures var c := Reached(cfg, moves).cells[id];
            var held := c.task.checkpoint.value;
            && held.steps == CallsInRun(c.log)
            && held.toolCalls == CallsRunInRun(c.log)
            && held.usage == UsageInRun(c.log)
            && 1 <= held.steps <= cfg.maxSteps
            && |held.messages| == 2 * held.steps
            && held.toolCalls == AnsweredCalls(held.messages[..|held.messages| - 1])
  {
    hide CommitsOk, ApprovalsOk, BatchesOk, RequestsOk, BudgetOk, PolicyOk, LifecyclePath, Legal, After;
    ReachedIsOk(cfg, moves);
    ReachedCounts(cfg, moves);
    assert CellOk(cfg, Reached(cfg, moves).cells[id]);
    assert TaskCounts(Reached(cfg, moves).cells[id]);
  }

  // The same at the loop head of a live driver, resumed or not.
  lemma DriversCarryTheCounters(cfg: Config, moves: seq<Move>, pid: nat)
    requires cfg.Valid() && Legal(cfg, EMPTY, moves)
    requires pid in Reached(cfg, moves).actors && Reached(cfg, moves).actors[pid].process.LoopHead?
    ensures var s := Reached(cfg, moves);
            var run := s.actors[pid].process.driver.run;
            && s.actors[pid].id in s.cells
            && run.steps == CallsInRun(s.cells[s.actors[pid].id].log)
            && run.toolCalls == CallsRunInRun(s.cells[s.actors[pid].id].log)
            && run.usage == UsageInRun(s.cells[s.actors[pid].id].log)
            && |run.messages| == 2 * run.steps + 1
            && run.toolCalls == AnsweredCalls(run.messages)
  {
    hide CellOk, Legal, After;
    ReachedIsOk(cfg, moves);
    ReachedCounts(cfg, moves);
    assert ActorOk(cfg, Reached(cfg, moves), Reached(cfg, moves).actors[pid]);
  }

  // What a settled result hands back is what the model said last before the run's
  // own commit, if it completed or paused, and no text at all if it failed.
  predicate AnswersInTheModelsWords(log: seq<Event>, i: nat, r: RunResult) {
    && SettledAt(log, i, r)
    && (r.task.status != Failed ==> LastHeard(log[..i]).Some?)
    && r.output == if r.task.status == Failed then "" else LastHeard(log[..i]).value.text
  }

  // A run that returns reports a decided or paused task, in the words recorded in
  // its history, with the model's own answer, and what was spent when that was
  // committed; one that was discarded or abandoned reports the cancelled task and
  // all that was ever spent on the run, and no text.
  lemma ResultsAreHonest(cfg: Config, moves: seq<Move>, pid: nat)
    requires cfg.Valid() && Legal(cfg, EMPTY, moves)
    requires pid in Reached(cfg, moves).actors && Reached(cfg, moves).actors[pid].process.Returned?
    ensures Reached(cfg, moves).actors[pid].id in Reached(cfg, moves).cells
    ensures var p := Reached(cfg, moves).actors[pid].process;
            var c := Reached(cfg, moves).cells[Reached(cfg, moves).actors[pid].id];
            && p.result.task.status in {Completed, Failed, AwaitingApproval, Cancelled}
            && (p.ending == Settled ==>
                  && p.result.task.history != []
                  && p.result.detail == p.result.task.history[|p.result.task.history| - 1].reason
                  && exists i :: AnswersInTheModelsWords(c.log, i, p.result))
            && (p.ending != Settled ==>
                  && p.result.task.status == Cancelled && p.result.output == "" && p.result.pendingCalls == []
                  && p.result.detail == RunStopped(Cancelled)
                  && p.result.task == c.task
                  && p.result.steps == CallsInRun(c.log)
                  && p.result.toolCalls == CallsRunInRun(c.log)
                  && p.result.usage == UsageInRun(c.log))
            && (p.result.task.status == AwaitingApproval <==> p.result.task.checkpoint.Some?)
            && p.result.pendingCalls
               == (if p.result.task.checkpoint.Some? then p.result.task.checkpoint.value.PendingCalls() else [])
  {
    hide CellOk, IntentOk, WriteOk, DriverOk, OnToolTurn, AtLoopHead, AskingTheModel, Advance, Perform, Legal, After;
    ReachedIsOk(cfg, moves);
    ReachedCounts(cfg, moves);
    var s := Reached(cfg, moves);
    assert ActorOk(cfg, s, s.actors[pid]);
    var p, c := s.actors[pid].process, s.cells[s.actors[pid].id];
    if p.ending == Settled {
      var i :| SettledAt(c.log, i, p.result);
      OutcomesFollowTheLastReply(cfg, moves, s.actors[pid].id, i);
      assert AnswersInTheModelsWords(c.log, i, p.result);
    } else {
      RunningTasksHoldNothing(cfg, c);
    }
  }
}
