/** The interleaved reads and writes of the protocol refine a store on which every
    successful transition is one indivisible read-check-write, and a table on which
    it is one conditional UPDATE of five columns. */
module Linearizability {
  import opened Wrappers
  import opened Tasks
  import opened Listing
  import opened Repository
  import opened RunLogic
  import opened Protocol
  import opened ProtocolInvariant
  import opened ProtocolTheorems
  import opened Postgres

  // --- The atomic specification -------------------------------------------------------

  datatype Operation =
    | Create(task: AgentTask)
    | Transition(id: TaskId, target: TaskStatus, reason: Reason, checkpoint: Option<RunCheckpoint>,
                 expectedVersion: Option<nat>, now: int)

  // One operation on a store, all at once; `None` if the specification refuses it.
  function Executed(store: Store, op: Operation): Option<Store> {
    match op
    case Create(task) => if task.id in store then None else Some(store[task.id := task])
    case Transition(id, target, reason, checkpoint, expectedVersion, now) =>
      var r := AtomicTransition(store, id, target, reason, checkpoint, expectedVersion, now);
      if r.Success? then Some(Written(store, r)) else None
  }

  function ExecutedAll(store: Store, ops: seq<Operation>): Option<Store>
    decreases |ops|
  {
    if ops == [] then Some(store)
    else
      var next := Executed(store, ops[0]);
      if next.None? then None else ExecutedAll(next.value, ops[1..])
  }

  // --- Where each transition takes effect -----------------------------------------------

  predicate WriteLands(s: State, pid: nat) {
    && pid in s.actors && s.actors[pid].id in s.cells
    && s.actors[pid].process.Writing?
    && s.cells[s.actors[pid].id].task.version == s.actors[pid].process.current.version
  }

  // A transition takes effect at its winning write and nowhere else.
  function Effect(s: State, m: Move): seq<Operation> {
    match m
    case CreateTask(id, goal, requestedBy, now) => [Create(AgentTask.Create(id, goal, requestedBy, now))]
    case Spawn(_, _, _) => []
    case Act(pid, input) =>
      if !input.Crash? && WriteLands(s, pid) then
        var p := s.actors[pid].process;
        [Transition(s.actors[pid].id, p.intent.Target(), p.intent.Text(), p.intent.NewCheckpoint(),
                    p.intent.ExpectedVersion(), p.updated.updatedAt)]
      else
        []
  }

  function Effects(cfg: Config, s: State, moves: seq<Move>): seq<Operation>
    requires Legal(cfg, s, moves)
    decreases |moves|
  {
    if moves == [] then [] else Effect(s, moves[0]) + Effects(cfg, Perform(cfg, s, moves[0]), moves[1..])
  }

  // What a step of a process does to the store.
  lemma StoreAfterAStep(cfg: Config, s: State, pid: nat, input: Input)
    requires Inv(cfg, s) && Enabled(s, Act(pid, input)) && s.actors[pid].id in s.cells
    ensures var t := Perform(cfg, s, Act(pid, input));
            t.Store() == if !input.Crash? && WriteLands(s, pid)
                         then s.Store()[s.actors[pid].id := s.actors[pid].process.updated]
                         else s.Store()
  {
    hide CellOk, ProcessOk;
    var Actor(id, p) := s.actors[pid];
    ActorAndCell(cfg, s, pid);
    OnlyWritesChangeTheTask(cfg, s.cells[id], p, input);
    var t := Perform(cfg, s, Act(pid, input));
    assert t.cells == s.cells[id := Advance(cfg, s.cells[id], p, input).0];
  }

  lemma AWriteIsOneOperation(cfg: Config, s: State, pid: nat, now: int)
    requires Inv(cfg, s) && WriteLands(s, pid)
    ensures var p := s.actors[pid].process;
            && p.updated.id == s.actors[pid].id
            && p.updated.SameIdentity(s.Store()[s.actors[pid].id])
            && p.current == s.Store()[s.actors[pid].id]
            && ExecutedAll(s.Store(), Effect(s, Act(pid, Go(now))))
               == Some(s.Store()[s.actors[pid].id := p.updated])
  {
    hide CellOk, ProcessOk;
    var Actor(id, p) := s.actors[pid];
    ActorAndCell(cfg, s, pid);
    OnlyWritesChangeTheTask(cfg, s.cells[id], p, Go(now));
    var op := Transition(id, p.intent.Target(), p.intent.Text(), p.intent.NewCheckpoint(),
                         p.intent.ExpectedVersion(), p.updated.updatedAt);
    assert Effect(s, Act(pid, Go(now))) == [op];
    assert Executed(s.Store(), op) == Some(s.Store()[id := p.updated]);
    assert [op][1..] == [];
  }

  lemma CreatingIsOneOperation(cfg: Config, s: State, m: Move)
    requires m.CreateTask? && Enabled(s, m)
    ensures var task := AgentTask.Create(m.id, m.goal, m.requestedBy, m.now);
            && Perform(cfg, s, m).Store() == s.Store()[m.id := task]
            && ExecutedAll(s.Store(), Effect(s, m)) == Some(s.Store()[m.id := task])
  {
    var op := Create(AgentTask.Create(m.id, m.goal, m.requestedBy, m.now));
    assert Effect(s, m) == [op];
    assert [op][1..] == [];
  }

  lemma OneMoveIsAtMostOneOperation(cfg: Config, s: State, m: Move)
    requires Inv(cfg, s) && Enabled(s, m)
    ensures ExecutedAll(s.Store(), Effect(s, m)) == Some(Perform(cfg, s, m).Store())
  {
    hide CellOk, ProcessOk;
    match m
    case CreateTask(_, _, _, _) => CreatingIsOneOperation(cfg, s, m);
    case Spawn(_, _, _) =>
    case Act(pid, input) =>
      if s.actors[pid].id in s.cells {
        StoreAfterAStep(cfg, s, pid, input);
        if !input.Crash? && WriteLands(s, pid) {
          AWriteIsOneOperation(cfg, s, pid, 0);
          assert Effect(s, m) == Effect(s, Act(pid, Go(0)));
        }
      }
  }

  lemma {:induction false} ExecutingInSequence(store: Store, first: seq<Operation>, rest: seq<Operation>)
    ensures ExecutedAll(store, first + rest)
            == (var mid := ExecutedAll(store, first); if mid.None? then None else ExecutedAll(mid.value, rest))
    decreases |first|
  {
    if first == [] {
      assert first + rest == rest;
    } else {
      assert (first + rest)[1..] == first[1..] + rest;
      var next := Executed(store, first[0]);
      if next.Some? {
        ExecutingInSequence(next.value, first[1..], rest);
      }
    }
  }

  // Whatever the interleaving, doing the winning transitions one after another,
  // each in one step, succeeds every time and gives the same store.
  lemma {:induction false} EveryRunIsLinearizable(cfg: Config, s: State, moves: seq<Move>)
    requires Inv(cfg, s) && Legal(cfg, s, moves)
    ensures ExecutedAll(s.Store(), Effects(cfg, s, moves)) == Some(After(cfg, s, moves).Store())
    decreases |moves|
  {
    if moves != [] {
      var t := Perform(cfg, s, moves[0]);
      OneMoveIsAtMostOneOperation(cfg, s, moves[0]);
      InvIsInductive(cfg, s, moves[0]);
      EveryRunIsLinearizable(cfg, t, moves[1..]);
      ExecutingInSequence(s.Store(), Effect(s, moves[0]), Effects(cfg, t, moves[1..]));
    }
  }

  // What a transition that was answered so at its read goes on to do.
  function Answered(intent: Intent, current: AgentTask, r: Result<AgentTask, Error>): Process {
    match r
    case Success(updated) => Writing(intent, current, updated)
    case Failure(error) => Lost(intent, error)
  }

  // Refusals are linearizable too: what a transition is told at its read is what
  // the atomic one would say at that instant.
  lemma RefusalsAreJustified(cfg: Config, s: State, id: TaskId, intent: Intent, now: int)
    requires Inv(cfg, s) && id in s.cells
    ensures Advance(cfg, s.cells[id], Loading(intent), Go(now))
            == (s.cells[id],
                Answered(intent, s.cells[id].task,
                         AtomicTransition(s.Store(), id, intent.Target(), intent.Text(), intent.NewCheckpoint(),
                                          intent.ExpectedVersion(), now)))
  {
    hide CellOk, ProcessOk;
    assert s.Store()[id] == s.cells[id].task && s.cells[id].task.id == id;
  }

  // And a write is refused only when the task has really moved on since its read.
  lemma RefusedWritesAreStale(cfg: Config, s: State, pid: nat, now: int)
    requires Inv(cfg, s) && pid in s.actors && s.actors[pid].id in s.cells
    requires s.actors[pid].process.Writing? && !WriteLands(s, pid)
    ensures var Actor(id, p) := s.actors[pid];
            var stored := s.cells[id];
            && p.current.version < stored.task.version
            && Advance(cfg, stored, p, Go(now))
               == (stored, Lost(p.intent, ConcurrentUpdate(id, p.current.version, stored.task.version)))
  {
    hide CellOk, IntentOk;
    ActorAndCell(cfg, s, pid);
  }

  // The key to it: at any two moments of a run, the same version of a task is the
  // same task, so comparing versions is comparing everything.
  lemma AVersionIsAWholeTask(cfg: Config, earlier: seq<Move>, later: seq<Move>, id: TaskId)
    requires cfg.Valid() && Legal(cfg, EMPTY, earlier) && Legal(cfg, Reached(cfg, earlier), later)
    requires id in Reached(cfg, earlier).cells
    ensures var s := Reached(cfg, earlier);
            var t := After(cfg, s, later);
            && id in t.cells
            && (s.cells[id].task.version == t.cells[id].task.version <==> s.cells[id].task == t.cells[id].task)
  {
    ReachedIsOk(cfg, earlier);
    HistoriesOnlyGrow(cfg, Reached(cfg, earlier), later, id);
  }

  // --- The same runs on Postgres ------------------------------------------------------------

  // The statement each move executes: an INSERT, or the conditional UPDATE with
  // whatever the process read, fresh or stale.
  function Statement(s: State, rows: Table, m: Move): Table {
    match m
    case CreateTask(id, goal, requestedBy, now) => rows[id := RowOf(AgentTask.Create(id, goal, requestedBy, now))]
    case Spawn(_, _, _) => rows
    case Act(pid, input) =>
      if !input.Crash? && pid in s.actors && s.actors[pid].process.Writing? then
        UpdateIfVersionMatches(rows, s.actors[pid].process.updated, s.actors[pid].process.current.version).0
      else
        rows
  }

  function Statements(cfg: Config, s: State, rows: Table, moves: seq<Move>): Table
    requires Legal(cfg, s, moves)
    decreases |moves|
  {
    if moves == [] then rows
    else Statements(cfg, Perform(cfg, s, moves[0]), Statement(s, rows, moves[0]), moves[1..])
  }

  lemma WritersKeepTheId(cfg: Config, s: State, pid: nat)
    requires Inv(cfg, s)
    requires pid in s.actors && s.actors[pid].id in s.cells && s.actors[pid].process.Writing?
    ensures s.actors[pid].process.updated.id == s.actors[pid].id
  {
    ActorAndCell(cfg, s, pid);
  }

  // A write that lands updates the row it read; one that does not matches none.
  lemma AWriteIsOneUpdate(cfg: Config, s: State, rows: Table, pid: nat)
    requires Inv(cfg, s) && Represents(rows, s.Store())
    requires pid in s.actors && s.actors[pid].id in s.cells && s.actors[pid].process.Writing?
    ensures var p := s.actors[pid].process;
            Represents(UpdateIfVersionMatches(rows, p.updated, p.current.version).0,
                       if WriteLands(s, pid) then s.Store()[s.actors[pid].id := p.updated] else s.Store())
  {
    hide CellOk, ProcessOk;
    var Actor(id, p) := s.actors[pid];
    var store := s.Store();
    WritersKeepTheId(cfg, s, pid);
    assert id in rows && ToTask(rows[id]) == store[id];
    if WriteLands(s, pid) {
      AWriteIsOneOperation(cfg, s, pid, 0);
      PartialWriteIsAReplacement(rows, store, p.updated, p.current.version);
    }
  }

  lemma AStepIsAtMostOneUpdate(cfg: Config, s: State, rows: Table, pid: nat, input: Input)
    requires Inv(cfg, s) && Enabled(s, Act(pid, input)) && Represents(rows, s.Store())
    requires s.actors[pid].id in s.cells
    ensures Represents(Statement(s, rows, Act(pid, input)), Perform(cfg, s, Act(pid, input)).Store())
  {
    hide CellOk, ProcessOk;
    StoreAfterAStep(cfg, s, pid, input);
    if s.actors[pid].process.Writing? {
      AWriteIsOneUpdate(cfg, s, rows, pid);
    }
  }

  // A process whose task does not exist never gets as far as writing.
  lemma NoTaskNoWrite(cfg: Config, s: State, pid: nat, input: Input)
    requires Inv(cfg, s) && Enabled(s, Act(pid, input)) && s.actors[pid].id !in s.cells
    ensures !s.actors[pid].process.Writing?
    ensures Perform(cfg, s, Act(pid, input)).cells == s.cells
  {
    assert ActorOk(cfg, s, s.actors[pid]);
  }

  lemma OneStatementKeepsTheTable(cfg: Config, s: State, rows: Table, m: Move)
    requires Inv(cfg, s) && Enabled(s, m) && Represents(rows, s.Store())
    ensures Represents(Statement(s, rows, m), Perform(cfg, s, m).Store())
  {
    hide CellOk, ProcessOk;
    match m
    case CreateTask(_, _, _, _) => CreatingIsOneOperation(cfg, s, m);
    case Spawn(_, _, _) =>
    case Act(pid, input) =>
      if s.actors[pid].id in s.cells {
        AStepIsAtMostOneUpdate(cfg, s, rows, pid, input);
      } else {
        NoTaskNoWrite(cfg, s, pid, input);
      }
  }

  // Every run leaves the table standing for the store: writing five columns is
  // enough, because no reachable transition changes the other four.
  lemma {:induction false} PostgresFollowsEveryRun(cfg: Config, s: State, rows: Table, moves: seq<Move>)
    requires Inv(cfg, s) && Legal(cfg, s, moves) && Represents(rows, s.Store())
    ensures Represents(Statements(cfg, s, rows, moves), After(cfg, s, moves).Store())
    decreases |moves|
  {
    if moves != [] {
      OneStatementKeepsTheTable(cfg, s, rows, moves[0]);
      InvIsInductive(cfg, s, moves[0]);
      PostgresFollowsEveryRun(cfg, Perform(cfg, s, moves[0]), Statement(s, rows, moves[0]), moves[1..]);
    }
  }
}
