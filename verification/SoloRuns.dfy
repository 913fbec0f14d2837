/** The sequential runner is one of the protocol's actors: what a call of `run`,
    `approve_task` or `reject_task` computes, other people's cancellations included,
    is what some interleaving of the protocol does, from any state. */
module SoloRuns {
  import opened Wrappers
  import opened Messages
  import opened Tasks
  import opened Repository
  import opened Registry
  import opened RunLogic
  import opened RunSemantics
  import opened Protocol
  import opened ProtocolInvariant
  import opened ProtocolTheorems

  // --- One process on its cell ------------------------------------------------------------

  // What can happen to a task while one caller is at work on it: a step of the
  // caller's own process, or somebody else's cancellation, stored.
  datatype Happening = Own(input: Input) | Interrupted(who: string, now: int)

  predicate Possible(c: Cell, p: Process, h: Happening) {
    match h
    case Own(input) => InputFits(p, input)
    case Interrupted(_, _) => Cancelled in Allowed(c.task.status)
  }

  function CancelledCell(c: Cell, who: string, now: int): Cell {
    Landed(c, Cancel(who, None), c.task.Moved(Cancelled, CancelledBy(who, None), None, now))
  }

  function Next(cfg: Config, c: Cell, p: Process, h: Happening): (Cell, Process)
    requires Possible(c, p, h)
  {
    match h
    case Own(input) => Advance(cfg, c, p, input)
    case Interrupted(who, now) => (CancelledCell(c, who, now), p)
  }

  predicate Fit(cfg: Config, c: Cell, p: Process, hs: seq<Happening>)
    decreases |hs|
  {
    hs == [] || (Possible(c, p, hs[0]) && var (cell, next) := Next(cfg, c, p, hs[0]); Fit(cfg, cell, next, hs[1..]))
  }

  function Alone(cfg: Config, c: Cell, p: Process, hs: seq<Happening>): (Cell, Process)
    requires Fit(cfg, c, p, hs)
    decreases |hs|
  {
    if hs == [] then (c, p)
    else var (cell, next) := Next(cfg, c, p, hs[0]); Alone(cfg, cell, next, hs[1..])
  }

  // These happenings take the process to its end, on this task.
  ghost predicate Ends(cfg: Config, c: Cell, p: Process, hs: seq<Happening>, task: AgentTask, end: Process) {
    && Fit(cfg, c, p, hs)
    && Alone(cfg, c, p, hs).0.task == task
    && Alone(cfg, c, p, hs).1 == end
  }

  lemma NothingEnds(cfg: Config, c: Cell, p: Process)
    ensures Ends(cfg, c, p, [], c.task, p)
  {}

  // One more happening at the front.
  lemma HappeningEnds(cfg: Config, c: Cell, p: Process, h: Happening, rest: seq<Happening>, task: AgentTask,
                      end: Process)
    requires Possible(c, p, h)
    requires Ends(cfg, Next(cfg, c, p, h).0, Next(cfg, c, p, h).1, rest, task, end)
    ensures Ends(cfg, c, p, [h] + rest, task, end)
  {
    assert ([h] + rest)[1..] == rest;
  }

  lemma StepEnds(cfg: Config, c: Cell, p: Process, input: Input, cell: Cell, next: Process, rest: seq<Happening>,
                 task: AgentTask, end: Process)
    requires InputFits(p, input) && Advance(cfg, c, p, input) == (cell, next)
    requires Ends(cfg, cell, next, rest, task, end)
    ensures Ends(cfg, c, p, [Own(input)] + rest, task, end)
  {
    hide Ends;
    HappeningEnds(cfg, c, p, Own(input), rest, task, end);
  }

  // --- The same in the whole system ----------------------------------------------------------

  // A cancellation is a process of its own.
  function MovesOf(pid: nat, id: TaskId, h: Happening, helper: nat): seq<Move> {
    match h
    case Own(input) => [Act(pid, input)]
    case Interrupted(who, now) =>
      [Spawn(helper, id, Loading(Cancel(who, None))), Act(helper, Go(now)), Act(helper, Go(0))]
  }

  function MovesOfAll(pid: nat, id: TaskId, hs: seq<Happening>, helper: nat): seq<Move> {
    if hs == [] then [] else MovesOf(pid, id, hs[0], helper) + MovesOfAll(pid, id, hs[1..], helper + 1)
  }

  ghost predicate Below(s: State, n: nat) {
    forall q | q in s.actors :: q < n
  }

  // From one state to the next, one task and one of its actors have moved.
  ghost predicate StepsTo(s: State, t: State, pid: nat, id: TaskId, cell: Cell, p: Process) {
    && t.cells == s.cells[id := cell]
    && pid in t.actors && t.actors[pid] == Actor(id, p)
    && (forall q | q in s.actors && q != pid :: q in t.actors && t.actors[q] == s.actors[q])
  }

  lemma InterruptionInTheSystem(cfg: Config, s: State, id: TaskId, who: string, now: int, helper: nat)
    requires id in s.cells && Cancelled in Allowed(s.cells[id].task.status) && helper !in s.actors
    ensures var moves := MovesOf(0, id, Interrupted(who, now), helper);
            && Legal(cfg, s, moves)
            && StepsTo(s, After(cfg, s, moves), helper, id, CancelledCell(s.cells[id], who, now),
                       Decided(CancelledCell(s.cells[id], who, now).task))
            && After(cfg, s, moves).actors.Keys == s.actors.Keys + {helper}
  {
    var intent := Cancel(who, None);
    var c := s.cells[id];
    var updated := c.task.Moved(Cancelled, CancelledBy(who, None), None, now);
    var moves := MovesOf(0, id, Interrupted(who, now), helper);
    var spawned := s.(actors := s.actors[helper := Actor(id, Loading(intent))]);
    assert Perform(cfg, s, moves[0]) == spawned;
    assert Advance(cfg, c, Loading(intent), Go(now)) == (c, Writing(intent, c.task, updated));
    var read := spawned.(actors := spawned.actors[helper := Actor(id, Writing(intent, c.task, updated))]);
    assert spawned.cells[id := c] == spawned.cells;
    assert Perform(cfg, spawned, moves[1]) == read;
    var done := State(read.cells[id := CancelledCell(c, who, now)], read.actors[helper := Actor(id, Decided(updated))]);
    assert Perform(cfg, read, moves[2]) == done;
    assert moves[1..][1..] == [moves[2]];
    OneMove(cfg, read, moves[2]);
    assert Legal(cfg, spawned, moves[1..]) && After(cfg, spawned, moves[1..]) == done;
  }

  lemma HappeningInTheSystem(cfg: Config, s: State, pid: nat, id: TaskId, p: Process, h: Happening, helper: nat)
    requires pid in s.actors && s.actors[pid] == Actor(id, p) && id in s.cells && Below(s, helper)
    requires Possible(s.cells[id], p, h)
    ensures var moves := MovesOf(pid, id, h, helper);
            && Legal(cfg, s, moves)
            && StepsTo(s, After(cfg, s, moves), pid, id, Next(cfg, s.cells[id], p, h).0, Next(cfg, s.cells[id], p, h).1)
            && Below(After(cfg, s, moves), helper + 1)
  {
    hide Advance;
    match h
    case Own(input) =>
      OneMove(cfg, s, Act(pid, input));
    case Interrupted(who, now) =>
      InterruptionInTheSystem(cfg, s, id, who, now, helper);
      assert MovesOf(pid, id, h, helper) == MovesOf(0, id, h, helper);
  }

  lemma {:induction false} AloneInTheSystem(
      cfg: Config, s: State, pid: nat, id: TaskId, p: Process, hs: seq<Happening>, helper: nat)
    requires pid in s.actors && s.actors[pid] == Actor(id, p) && id in s.cells && Below(s, helper)
    requires Fit(cfg, s.cells[id], p, hs)
    ensures Legal(cfg, s, MovesOfAll(pid, id, hs, helper))
    ensures var (cell, end) := Alone(cfg, s.cells[id], p, hs);
            StepsTo(s, After(cfg, s, MovesOfAll(pid, id, hs, helper)), pid, id, cell, end)
    decreases |hs|
  {
    hide Next, Possible, MovesOf;
    if hs == [] {
      assert s.cells == s.cells[id := s.cells[id]];
    } else {
      var first := MovesOf(pid, id, hs[0], helper);
      HappeningInTheSystem(cfg, s, pid, id, p, hs[0], helper);
      var t := After(cfg, s, first);
      var (cell, next) := Next(cfg, s.cells[id], p, hs[0]);
      AloneInTheSystem(cfg, t, pid, id, next, hs[1..], helper + 1);
      AfterInSequence(cfg, s, first, MovesOfAll(pid, id, hs[1..], helper + 1));
      var last := Alone(cfg, s.cells[id], p, hs).0;
      assert t.cells[id := last] == s.cells[id := last];
    }
  }

  lemma {:induction false} RoomForOneMore(pids: set<nat>) returns (n: nat)
    ensures forall q | q in pids :: q < n
  {
    if pids == {} {
      n := 0;
    } else {
      var q :| q in pids;
      var m := RoomForOneMore(pids - {q});
      n := if m > q then m else q + 1;
      forall r | r in pids
        ensures r < n
      {
        assert r == q || r in pids - {q};
      }
    }
  }

  // A new process, taken to its end, changes its own task and disturbs nobody.
  ghost predicate Realizes(cfg: Config, system: State, moves: seq<Move>, pid: nat, store: map<TaskId, AgentTask>,
                           end: Process) {
    && Legal(cfg, system, moves)
    && After(cfg, system, moves).Store() == store
    && pid !in system.actors && pid in After(cfg, system, moves).actors
    && After(cfg, system, moves).actors[pid].process == end
    && forall q | q in system.actors ::
         q in After(cfg, system, moves).actors && After(cfg, system, moves).actors[q] == system.actors[q]
  }

  function HandedBack(outcome: Result<RunResult, Error>, ending: Ending): Process {
    match outcome
    case Success(result) => Returned(result, ending)
    case Failure(error) => Raised(error)
  }

  lemma SpawnedAndLeftAlone(cfg: Config, system: State, id: TaskId, p: Process, hs: seq<Happening>, task: AgentTask,
                            end: Process)
    returns (moves: seq<Move>, pid: nat)
    requires id in system.cells && p.Initial() && Ends(cfg, system.cells[id], p, hs, task, end)
    ensures Realizes(cfg, system, moves, pid, system.Store()[id := task], end)
  {
    hide Fit, Alone, Advance;
    pid := RoomForOneMore(system.actors.Keys);
    var spawn := Spawn(pid, id, p);
    var spawned := Perform(cfg, system, spawn);
    AloneInTheSystem(cfg, spawned, pid, id, p, hs, pid + 1);
    var rest := MovesOfAll(pid, id, hs, pid + 1);
    moves := [spawn] + rest;
    assert moves[1..] == rest;
    var cell := Alone(cfg, system.cells[id], p, hs).0;
    assert After(cfg, system, moves).cells == system.cells[id := cell];
    assert After(cfg, system, moves).Store() == system.Store()[id := task];
  }

  // On a task that does not exist every request comes to the same end.
  lemma SpawnedOnNothing(cfg: Config, system: State, id: TaskId, p: Process) returns (moves: seq<Move>, pid: nat)
    requires id !in system.cells && p.Initial()
    ensures Realizes(cfg, system, moves, pid, system.Store(), Raised(TaskNotFound(id)))
  {
    hide Advance;
    pid := RoomForOneMore(system.actors.Keys);
    var spawned := Perform(cfg, system, Spawn(pid, id, p));
    var act := Act(pid, Go(0));
    moves := [Spawn(pid, id, p), act];
    assert moves[1..] == [act];
    OneMove(cfg, spawned, act);
  }

  // --- Driving, step by step ----------------------------------------------------------------

  // The store and the cell agree on a task whose run is still on, or was cancelled.
  ghost predicate Driven<W(!new)>(s: Sys<W>, id: TaskId, c: Cell) {
    && Keyed(s.tasks) && id in s.tasks && c.task == s.tasks[id]
    && (c.task.status == Running || c.task.status == Cancelled)
  }

  // What may have happened to the task while the caller was waiting.
  function Meanwhile<W(!new)>(env: Environment<W>, s: Sys<W>, c: Cell): seq<Happening> {
    match env.cancelled(s.world)
    case None => []
    case Some(who) => if Cancelled in Allowed(c.task.status) then [Interrupted(who, s.clock)] else []
  }

  function CellMeanwhile<W(!new)>(env: Environment<W>, s: Sys<W>, c: Cell): Cell {
    match env.cancelled(s.world)
    case None => c
    case Some(who) => if Cancelled in Allowed(c.task.status) then CancelledCell(c, who, s.clock) else c
  }

  lemma WaitingStepByStep<W(!new)>(cfg: Config, env: Environment<W>, s: Sys<W>, id: TaskId, c: Cell)
    requires Driven(s, id, c)
    ensures var t := AfterWaiting(env, s, id);
            Driven(t, id, CellMeanwhile(env, s, c)) && t.tasks == s.tasks[id := t.tasks[id]]
  {
    assert s.tasks == s.tasks[id := s.tasks[id]];
  }

  lemma WaitingEnds<W(!new)>(cfg: Config, env: Environment<W>, s: Sys<W>, c: Cell, p: Process, rest: seq<Happening>,
                             task: AgentTask, end: Process)
    requires Ends(cfg, CellMeanwhile(env, s, c), p, rest, task, end)
    ensures Ends(cfg, c, p, Meanwhile(env, s, c) + rest, task, end)
  {
    hide Ends;
    match env.cancelled(s.world)
    case None => assert [] + rest == rest;
    case Some(who) =>
      if Cancelled in Allowed(c.task.status) {
        HappeningEnds(cfg, c, p, Interrupted(who, s.clock), rest, task, end);
      } else {
        assert [] + rest == rest;
      }
  }

  // Two steps end a run: its outcome is committed, or, if somebody cancelled it,
  // the task is reported as it stands.
  lemma FinishingStepByStep<W(!new)>(
      cfg: Config, s: Sys<W>, id: TaskId, c: Cell, d: Driver, status: TaskStatus, reason: Reason, output: string,
      checkpoint: Option<RunCheckpoint>)
    returns (ending: Ending)
    requires Driven(s, id, c)
    requires status in Allowed(Running) && CheckpointFits(status, checkpoint)
    ensures var (ended, result) := Finishing(s, id, d.run, status, reason, output, checkpoint);
            && id in ended.tasks && ended.tasks == s.tasks[id := ended.tasks[id]]
            && Ends(cfg, c, Loading(Finish(d, status, reason, output, checkpoint)),
                    [Own(Go(s.clock))] + ([Own(Go(0))] + []),
                    ended.tasks[id], Returned(result, ending))
  {
    hide Ends, LifecyclePath;
    var intent := Finish(d, status, reason, output, checkpoint);
    var (ended, result) := Finishing(s, id, d.run, status, reason, output, checkpoint);
    ending := if c.task.status == Running then Settled else Discarded;
    var end, last := Returned(result, ending), [Own(Go(0))] + [];
    if c.task.status == Running {
      var updated := c.task.Moved(status, reason, checkpoint, s.clock);
      var written, writing := Landed(c, intent, updated), Writing(intent, c.task, updated);
      NothingEnds(cfg, written, end);
      StepEnds(cfg, c, writing, Go(0), written, end, [], updated, end);
      StepEnds(cfg, c, Loading(intent), Go(s.clock), c, writing, last, updated, end);
    } else {
      assert s.tasks == s.tasks[id := s.tasks[id]];
      NothingEnds(cfg, c, end);
      StepEnds(cfg, c, Reporting(d, Discarded), Go(0), c, end, [], c.task, end);
      StepEnds(cfg, c, Loading(intent), Go(s.clock), c, Reporting(d, Discarded), last, c.task, end);
    }
  }

  // A head that finds the task cancelled returns in two steps.
  lemma AbandoningStepByStep<W(!new)>(cfg: Config, s: Sys<W>, id: TaskId, c: Cell, d: Driver)
    requires Driven(s, id, c) && c.task.status != Running && 0 < d.run.steps < cfg.maxSteps
    ensures var (ended, result) := Discarding(s, id, d.run);
            Ends(cfg, c, LoopHead(d), [Own(Go(0))] + ([Own(Go(0))] + []), ended.tasks[id], Returned(result, Abandoned))
  {
    hide Ends;
    var end := Returned(Discarding(s, id, d.run).1, Abandoned);
    NothingEnds(cfg, c, end);
    StepEnds(cfg, c, Reporting(d, Abandoned), Go(0), c, end, [], c.task, end);
    StepEnds(cfg, c, LoopHead(d), Go(0), c, Reporting(d, Abandoned), [Own(Go(0))] + [], c.task, end);
  }

  // From the loop head to the model's reply takes three, and a wait.
  lemma AskingStepByStep<W(!new)>(
      cfg: Config, env: Environment<W>, s: Sys<W>, c: Cell, d: Driver, reply: ModelReply, rest: seq<Happening>,
      task: AgentTask, end: Process)
    requires d.run.steps < cfg.maxSteps && (d.run.steps == 0 || c.task.status == Running) && reply.Valid()
    requires var asking := d.(run := d.run.(steps := d.run.steps + 1));
             var waited := CellMeanwhile(env, s, c.Logged(Asked(d.run.messages)));
             var (cell, p) := Advance(cfg, waited, InModel(asking), Reply(reply));
             Ends(cfg, cell, p, rest, task, end)
    ensures var wait := Meanwhile(env, s, c.Logged(Asked(d.run.messages)));
            var hs := [Own(Go(0))] + ([Own(Go(0))] + (wait + ([Own(Reply(reply))] + rest)));
            Ends(cfg, c, LoopHead(d), hs, task, end)
  {
    hide Ends, AfterReply;
    var asking := d.(run := d.run.(steps := d.run.steps + 1));
    var asked := c.Logged(Asked(d.run.messages));
    var (cell, p) := Advance(cfg, CellMeanwhile(env, s, asked), InModel(asking), Reply(reply));
    var replied := [Own(Reply(reply))] + rest;
    StepEnds(cfg, CellMeanwhile(env, s, asked), InModel(asking), Reply(reply), cell, p, rest, task, end);
    WaitingEnds(cfg, env, s, asked, InModel(asking), replied, task, end);
    var waited := Meanwhile(env, s, asked) + replied;
    StepEnds(cfg, c, Asking(asking), Go(0), asked, InModel(asking), waited, task, end);
    StepEnds(cfg, c, LoopHead(d), Go(0), c, Asking(asking), [Own(Go(0))] + waited, task, end);
  }

  // Executing a turn takes two, and a wait, and comes back to the loop head.
  lemma ExecutingStepByStep<W(!new)>(
      cfg: Config, env: Environment<W>, s: Sys<W>, c: Cell, d: Driver, calls: seq<ToolCall>, approval: Option<nat>,
      results: seq<ToolResult>, rest: seq<Happening>, task: AgentTask, end: Process)
    requires Answers(calls, results)
    requires var waited := CellMeanwhile(env, s, c.Logged(Ran(calls, approval)));
             Ends(cfg, waited.Logged(Told(results)), LoopHead(d.(run := AfterResults(d.run, results))), rest, task, end)
    ensures var wait := Meanwhile(env, s, c.Logged(Ran(calls, approval)));
            var hs := [Own(Go(0))] + (wait + ([Own(Results(results))] + rest));
            Ends(cfg, c, BeforeTools(d, calls, approval), hs, task, end)
  {
    hide Ends;
    var ran := c.Logged(Ran(calls, approval));
    var waited := CellMeanwhile(env, s, ran);
    StepEnds(cfg, waited, InTools(d, calls), Results(results), waited.Logged(Told(results)),
             LoopHead(d.(run := AfterResults(d.run, results))), rest, task, end);
    WaitingEnds(cfg, env, s, ran, InTools(d, calls), [Own(Results(results))] + rest, task, end);
    StepEnds(cfg, c, BeforeTools(d, calls, approval), Go(0), ran, InTools(d, calls),
             Meanwhile(env, s, ran) + ([Own(Results(results))] + rest), task, end);
  }

  lemma HeadGivesUp(cfg: Config, c: Cell, d: Driver)
    requires d.run.steps >= cfg.maxSteps
    ensures var intent := Finish(d, Failed, BudgetExhausted(cfg.maxSteps), "", None);
            Advance(cfg, c, LoopHead(d), Go(0)) == (c, Loading(intent))
  {}

  // Whoever cancels meanwhile, a driver at the loop head ends with the task, and
  // hands back the result, that the runner computes.
  lemma {:induction false} DrivingStepByStep<W(!new)>(
      cfg: Config, env: Environment<W>, s: Sys<W>, id: TaskId, run: Run, c: Cell, version: nat)
    returns (hs: seq<Happening>, ending: Ending)
    requires Sane(env) && Driven(s, id, c) && AtLoopHead(cfg, run)
    ensures var (ended, result) := Driving(cfg, env, s, id, run);
            && id in ended.tasks && ended.tasks == s.tasks[id := ended.tasks[id]]
            && Ends(cfg, c, LoopHead(Driver(run, version)), hs, ended.tasks[id], Returned(result, ending))
    decreases if run.steps < cfg.maxSteps then cfg.maxSteps - run.steps else 0
  {
    hide Ends, Conversation, AfterReply, AfterWaiting, Advance;
    var d := Driver(run, version);
    var (ended, result) := Driving(cfg, env, s, id, run);
    if run.steps >= cfg.maxSteps {
      ending := FinishingStepByStep(cfg, s, id, c, d, Failed, BudgetExhausted(cfg.maxSteps), "", None);
      hs := [Own(Go(s.clock))] + ([Own(Go(0))] + []);
      HeadGivesUp(cfg, c, d);
      var giving := Loading(Finish(d, Failed, BudgetExhausted(cfg.maxSteps), "", None));
      StepEnds(cfg, c, LoopHead(d), Go(0), c, giving, hs, ended.tasks[id], Returned(result, ending));
      hs := [Own(Go(0))] + hs;
    } else if run.steps > 0 && c.task.status != Running {
      AbandoningStepByStep(cfg, s, id, c, d);
      assert s.tasks == s.tasks[id := s.tasks[id]];
      hs, ending := [Own(Go(0))] + ([Own(Go(0))] + []), Abandoned;
    } else {
      var asked := c.Logged(Asked(run.messages));
      var asking := Driver(run.(steps := run.steps + 1), version);
      var (world, reply) := env.ask(s.world, run.messages);
      assert env.ask(s.world, run.messages).1.Valid();
      var waiting := s.(world := world, requests := s.requests + [run.messages]);
      WaitingStepByStep(cfg, env, waiting, id, asked);
      var rest;
      var waited := CellMeanwhile(env, waiting, asked);
      rest, ending := DecidingStepByStep(cfg, env, AfterWaiting(env, waiting, id), id, waited, asking, reply);
      AskingStepByStep(cfg, env, waiting, c, d, reply, rest, ended.tasks[id], Returned(result, ending));
      hs := [Own(Go(0))] + ([Own(Go(0))] + (Meanwhile(env, waiting, asked) + ([Own(Reply(reply))] + rest)));
    }
  }

  lemma {:induction false} DecidingStepByStep<W(!new)>(
      cfg: Config, env: Environment<W>, s: Sys<W>, id: TaskId, c: Cell, d: Driver, reply: ModelReply)
    returns (hs: seq<Happening>, ending: Ending)
    requires Sane(env) && Driven(s, id, c) && reply.Valid() && AskingTheModel(cfg, d.run)
    ensures var (cell, p) := Advance(cfg, c, InModel(d), Reply(reply));
            var (next, decision) := AfterReply(cfg, d.run, reply);
            var (ended, result) := AfterDeciding(cfg, env, s, id, next, decision);
            && id in ended.tasks && ended.tasks == s.tasks[id := ended.tasks[id]]
            && Ends(cfg, cell, p, hs, ended.tasks[id], Returned(result, ending))
    decreases cfg.maxSteps - d.run.steps + 1, 1
  {
    hide Ends, Conversation, Resumable;
    var (next, decision) := AfterReply(cfg, d.run, reply);
    var cell := Advance(cfg, c, InModel(d), Reply(reply)).0;
    ReplyKeepsTheRunInShape(cfg, d.run, reply);
    match decision
    case Settle(status, reason, output, checkpoint) =>
      ending := FinishingStepByStep(cfg, s, id, cell, d.(run := next), status, reason, output, checkpoint);
      hs := [Own(Go(s.clock))] + ([Own(Go(0))] + []);
    case Execute(calls) =>
      hs, ending := TurnStepByStep(cfg, env, s, id, cell, d.(run := next), calls, None);
  }

  // The turn on hand is executed, held or not, and the run goes on.
  lemma {:induction false} TurnStepByStep<W(!new)>(
      cfg: Config, env: Environment<W>, s: Sys<W>, id: TaskId, c: Cell, d: Driver, calls: seq<ToolCall>,
          approval: Option<nat>)
    returns (hs: seq<Happening>, ending: Ending)
    requires Sane(env) && Driven(s, id, c)
    requires OnToolTurn(cfg, d.run) && calls == d.run.messages[|d.run.messages| - 1].toolCalls
    ensures var (acted, answered) := Answering(cfg, env, s, id, d.run, calls);
            id in acted.tasks &&
            var (ended, result) := Driving(cfg, env, acted, id, answered);
            && id in ended.tasks && ended.tasks == s.tasks[id := ended.tasks[id]]
            && Ends(cfg, c, BeforeTools(d, calls, approval), hs, ended.tasks[id], Returned(result, ending))
    decreases cfg.maxSteps - d.run.steps + 1, 0
  {
    hide Ends, Conversation, PausedConversation, Advance, Driving;
    var (world, outcomes) := env.act(s.world, calls);
    var waiting := s.(world := world, batches := s.batches + [calls]);
    var ran := c.Logged(Ran(calls, approval));
    WaitingStepByStep(cfg, env, waiting, id, ran);
    var results := ResultsOf(cfg.tools, calls, outcomes);
    ResultsAnswerTheirCalls(cfg.tools, calls, outcomes);
    ResultsKeepTheRunInShape(cfg, d.run, results);
    var acted, answered := AfterWaiting(env, waiting, id), AfterResults(d.run, results);
    assert Answering(cfg, env, s, id, d.run, calls) == (acted, answered);
    var rest;
    var told := CellMeanwhile(env, waiting, ran).Logged(Told(results));
    rest, ending := DrivingStepByStep(cfg, env, acted, id, answered, told, d.version);
    var (ended, result) := Driving(cfg, env, acted, id, answered);
    var end := Returned(result, ending);
    ExecutingStepByStep(cfg, env, waiting, c, d, calls, approval, results, rest, ended.tasks[id], end);
    hs := [Own(Go(0))] + (Meanwhile(env, waiting, ran) + ([Own(Results(results))] + rest));
  }

  // --- Whole requests --------------------------------------------------------------------------

  lemma StartingStepByStep<W(!new)>(cfg: Config, env: Environment<W>, s: Sys<W>, id: TaskId, c: Cell)
    returns (hs: seq<Happening>, ending: Ending)
    requires Sane(env) && Keyed(s.tasks) && id in s.tasks && c.task == s.tasks[id]
    requires Running in Allowed(c.task.status)
    ensures var (ended, outcome) := Starting(cfg, env, s, id);
            && outcome.Success? && id in ended.tasks && ended.tasks == s.tasks[id := ended.tasks[id]]
            && Ends(cfg, c, Loading(Start), hs, ended.tasks[id], Returned(outcome.value, ending))
  {
    hide Ends, Driving, LifecyclePath;
    var r := Transitioned(s, id, Running, RunStarted, None, None);
    var running, updated := s.Committing(r), r.value;
    var won := Landed(c, Start, updated);
    var head := LoopHead(Driver(FreshRun(updated.goal), updated.version));
    FreshRunIsAtTheHead(cfg, updated.goal);
    hs, ending := DrivingStepByStep(cfg, env, running, id, FreshRun(updated.goal), won, updated.version);
    var (ended, result) := Driving(cfg, env, running, id, FreshRun(updated.goal));
    var end := Returned(result, ending);
    StepEnds(cfg, c, Writing(Start, c.task, updated), Go(0), won, head, hs, ended.tasks[id], end);
    hs := [Own(Go(0))] + hs;
    StepEnds(cfg, c, Loading(Start), Go(s.clock), c, Writing(Start, c.task, updated), hs, ended.tasks[id], end);
    hs := [Own(Go(s.clock))] + hs;
  }

  // A caller of `run`, on any task, in any state: some interleaving of the protocol
  // leaves the store, and hands the caller the result or the error, that the
  // sequential runner computes.
  lemma RunIsAnInterleaving<W(!new)>(cfg: Config, env: Environment<W>, s: Sys<W>, id: TaskId, system: State)
    returns (moves: seq<Move>, pid: nat, ending: Ending)
    requires cfg.Valid() && Sane(env) && Keyed(s.tasks) && system.Store() == s.tasks
    ensures var (ended, outcome) := Starting(cfg, env, s, id);
            && Realizes(cfg, system, moves, pid, ended.tasks, HandedBack(outcome, ending))
            && (outcome.Success? <==>
                  id in s.tasks && (s.tasks[id].status == Pending || s.tasks[id].status == AwaitingApproval))
  {
    hide Ends, Driving, LifecyclePath, Realizes;
    ending := Settled;
    if id !in s.tasks {
      moves, pid := SpawnedOnNothing(cfg, system, id, Loading(Start));
    } else {
      var c := system.cells[id];
      var r := Transitioned(s, id, Running, RunStarted, None, None);
      if r.Failure? {
        NothingEnds(cfg, c, Raised(r.error));
        StepEnds(cfg, c, Loading(Start), Go(s.clock), c, Raised(r.error), [], c.task, Raised(r.error));
        var hs := [Own(Go(s.clock))] + [];
        moves, pid := SpawnedAndLeftAlone(cfg, system, id, Loading(Start), hs, c.task, Raised(r.error));
        assert s.tasks == s.tasks[id := c.task];
      } else {
        var hs;
        hs, ending := StartingStepByStep(cfg, env, s, id, c);
        var (ended, outcome) := Starting(cfg, env, s, id);
        var end := Returned(outcome.value, ending);
        moves, pid := SpawnedAndLeftAlone(cfg, system, id, Loading(Start), hs, ended.tasks[id], end);
      }
    }
  }

  // A process refused after these many reads.
  lemma RefusedEnds(cfg: Config, c: Cell, p: Process, error: Error)
    requires InputFits(p, Go(0)) && Advance(cfg, c, p, Go(0)) == (c, Raised(error))
    ensures Ends(cfg, c, p, [Own(Go(0))] + [], c.task, Raised(error))
  {
    NothingEnds(cfg, c, Raised(error));
    StepEnds(cfg, c, p, Go(0), c, Raised(error), [], c.task, Raised(error));
  }

  // The winning approval of a paused task, and the run it sets going again.
  lemma ResumingStepByStep<W(!new)>(
      cfg: Config, env: Environment<W>, s: Sys<W>, id: TaskId, c: Cell, approver: string, note: Option<string>)
    returns (hs: seq<Happening>, ending: Ending)
    requires cfg.Valid() && Sane(env) && Keyed(s.tasks) && id in s.tasks && c.task == s.tasks[id] && CellOk(cfg, c)
    requires c.task.status == AwaitingApproval
    ensures var (ended, outcome) := Approving(cfg, env, s, id, approver, note);
            && outcome.Success? && id in ended.tasks && ended.tasks == s.tasks[id := ended.tasks[id]]
            && Ends(cfg, c, FindingPaused(ApproveRequest(approver, note)), hs, ended.tasks[id],
                    Returned(outcome.value, ending))
  {
    hide Ends, Driving, LifecyclePath, Conversation, PausedConversation;
    hide CommitsOk, ApprovalsOk, BatchesOk, RequestsOk, BudgetOk, PolicyOk;
    var held := c.task.checkpoint.value;
    var intent := Approve(c.task, held, approver, note);
    var r := Transitioned(s, id, Running, ApprovedBy(approver, note), None, Some(c.task.version));
    var running, updated := s.Committing(r), r.value;
    var won := Landed(c, intent, updated);
    var d := Driver(Resuming(held), updated.version);
    hs, ending := TurnStepByStep(cfg, env, running, id, won, d, held.PendingCalls(), Some(|c.log|));
    var (ended, outcome) := Approving(cfg, env, s, id, approver, note);
    var end := Returned(outcome.value, ending);
    assert won == Landed(c, intent, updated);
    var turn := BeforeTools(d, held.PendingCalls(), Some(|c.log|));
    StepEnds(cfg, c, Writing(intent, c.task, updated), Go(0), won, turn, hs, ended.tasks[id], end);
    hs := [Own(Go(0))] + hs;
    StepEnds(cfg, c, Loading(intent), Go(s.clock), c, Writing(intent, c.task, updated), hs, ended.tasks[id], end);
    hs := [Own(Go(s.clock))] + hs;
    var finding := FindingPaused(ApproveRequest(approver, note));
    StepEnds(cfg, c, finding, Go(0), c, Loading(intent), hs, ended.tasks[id], end);
    hs := [Own(Go(0))] + hs;
  }

  // A caller of `approve_task`, from any state the protocol can reach.
  lemma ResumeIsAnInterleaving<W(!new)>(
      cfg: Config, env: Environment<W>, s: Sys<W>, id: TaskId, approver: string, note: Option<string>, system: State)
    returns (moves: seq<Move>, pid: nat, ending: Ending)
    requires Inv(cfg, system) && Sane(env) && system.Store() == s.tasks && Keyed(s.tasks)
    ensures var (ended, outcome) := ApprovingTask(cfg, env, s, id, approver, note);
            && Realizes(cfg, system, moves, pid, ended.tasks, HandedBack(outcome, ending))
            && (outcome.Success? <==>
                  && id in s.tasks && s.tasks[id].status == AwaitingApproval
                  && !(cfg.requiresSecondPerson && approver == s.tasks[id].requestedBy))
  {
    hide Ends, Approving, LifecyclePath, Realizes, CellOk;
    ending := Settled;
    var checking, request := CheckingPolicy(approver, note), ApproveRequest(approver, note);
    if id !in s.tasks {
      NothingPausedIsRefused(cfg, env, s, id, approver, note);
      moves, pid := SpawnedOnNothing(cfg, system, id, checking);
    } else {
      var c := system.cells[id];
      assert s.tasks == s.tasks[id := c.task];
      if cfg.requiresSecondPerson && approver == c.task.requestedBy {
        RefusedEnds(cfg, c, checking, Forbidden(id));
        moves, pid := SpawnedAndLeftAlone(cfg, system, id, checking, [Own(Go(0))] + [], c.task, Raised(Forbidden(id)));
      } else if c.task.status != AwaitingApproval {
        var error := InvalidTransition(c.task.status, Running);
        NothingPausedIsRefused(cfg, env, s, id, approver, note);
        RefusedEnds(cfg, c, FindingPaused(request), error);
        StepEnds(cfg, c, checking, Go(0), c, FindingPaused(request), [Own(Go(0))] + [], c.task, Raised(error));
        var hs := [Own(Go(0))] + ([Own(Go(0))] + []);
        moves, pid := SpawnedAndLeftAlone(cfg, system, id, checking, hs, c.task, Raised(error));
      } else {
        var hs;
        hs, ending := ResumingStepByStep(cfg, env, s, id, c, approver, note);
        var (ended, outcome) := Approving(cfg, env, s, id, approver, note);
        var end := Returned(outcome.value, ending);
        StepEnds(cfg, c, checking, Go(0), c, FindingPaused(request), hs, ended.tasks[id], end);
        moves, pid := SpawnedAndLeftAlone(cfg, system, id, checking, [Own(Go(0))] + hs, ended.tasks[id], end);
      }
    }
  }

  // A caller of `reject_task`.
  lemma RejectIsAnInterleaving<W(!new)>(
      cfg: Config, s: Sys<W>, id: TaskId, rejecter: string, why: Option<string>, system: State)
    returns (moves: seq<Move>, pid: nat)
    requires Keyed(s.tasks) && system.Store() == s.tasks
    ensures var (ended, outcome) := Rejecting(s, id, rejecter, why);
            Realizes(cfg, system, moves, pid, ended.tasks,
                     match outcome case Success(task) => Decided(task) case Failure(error) => Raised(error))
  {
    hide Ends, LifecyclePath, Realizes;
    var finding := FindingPaused(RejectRequest(rejecter, why));
    if id !in s.tasks {
      moves, pid := SpawnedOnNothing(cfg, system, id, finding);
    } else {
      var c := system.cells[id];
      assert s.tasks == s.tasks[id := c.task];
      if c.task.status != AwaitingApproval {
        var error := InvalidTransition(c.task.status, Running);
        RefusedEnds(cfg, c, finding, error);
        moves, pid := SpawnedAndLeftAlone(cfg, system, id, finding, [Own(Go(0))] + [], c.task, Raised(error));
      } else {
        var intent := Reject(c.task, rejecter, why);
        var updated := c.task.Moved(Cancelled, RejectedBy(rejecter, why), None, s.clock);
        var hs := [Own(Go(0))] + [];
        var landed, end := Landed(c, intent, updated), Decided(updated);
        NothingEnds(cfg, landed, end);
        StepEnds(cfg, c, Writing(intent, c.task, updated), Go(0), landed, end, [], updated, end);
        StepEnds(cfg, c, Loading(intent), Go(s.clock), c, Writing(intent, c.task, updated), hs, updated, end);
        hs := [Own(Go(s.clock))] + hs;
        StepEnds(cfg, c, finding, Go(0), c, Loading(intent), hs, updated, end);
        moves, pid := SpawnedAndLeftAlone(cfg, system, id, finding, [Own(Go(0))] + hs, updated, end);
      }
    }
  }
}
