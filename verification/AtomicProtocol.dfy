/** The protocol with `transition_task` done in one step: read, check and write
    together. It reaches exactly the stores the interleaved protocol reaches. */
module AtomicProtocol {
  import opened Wrappers
  import opened Tasks
  import opened Listing
  import opened RunLogic
  import opened Protocol
  import opened ProtocolInvariant
  import opened ProtocolTheorems

  // A transition reads the task and either is refused or has written already.
  function AtomicAdvance(cfg: Config, c: Cell, p: Process, input: Input): (Cell, Process)
    requires InputFits(p, input)
  {
    if p.Loading? && !input.Crash? then
      match Load(p.intent, c.task, input.now)
      case Writing(intent, _, updated) => (Landed(c, intent, updated), Won(intent, updated, |c.log|))
      case refused => (c, refused)
    else
      Advance(cfg, c, p, input)
  }

  function AtomicPerform(cfg: Config, s: State, m: Move): State
    requires Enabled(s, m)
  {
    if m.Act? && s.actors[m.pid].id in s.cells then
      var Actor(id, process) := s.actors[m.pid];
      var (cell, next) := AtomicAdvance(cfg, s.cells[id], process, m.input);
      State(s.cells[id := cell], s.actors[m.pid := Actor(id, next)])
    else
      Perform(cfg, s, m)
  }

  predicate AtomicLegal(cfg: Config, s: State, moves: seq<Move>)
    decreases |moves|
  {
    moves == [] || (Enabled(s, moves[0]) && AtomicLegal(cfg, AtomicPerform(cfg, s, moves[0]), moves[1..]))
  }

  function AtomicAfter(cfg: Config, s: State, moves: seq<Move>): State
    requires AtomicLegal(cfg, s, moves)
    decreases |moves|
  {
    if moves == [] then s else AtomicAfter(cfg, AtomicPerform(cfg, s, moves[0]), moves[1..])
  }

  // --- Interleaved runs, done atomically -------------------------------------------------------

  // A process between its read and its write has done nothing yet; one that lost a
  // race might as well never have tried.
  predicate StandsFor(p: Process, atomic: Process) {
    || p == atomic
    || (p.Writing? && atomic == Loading(p.intent))
    || (p.Raised? && atomic.Crashed?)
  }

  ghost predicate Matches(s: State, atomic: State) {
    && s.cells == atomic.cells
    && s.actors.Keys == atomic.actors.Keys
    && forall pid | pid in s.actors ::
         && s.actors[pid].id == atomic.actors[pid].id
         && StandsFor(s.actors[pid].process, atomic.actors[pid].process)
  }

  // What the atomic process does when the interleaved one takes a step: nothing at
  // the read, everything at the write.
  function Instead(c: Cell, p: Process, atomic: Process, input: Input): Option<Input>
    requires InputFits(p, input)
  {
    if input.Crash? then Some(Crash)
    else if p.Loading? && Load(p.intent, c.task, input.now).Writing? then None
    else if p.Writing? && c.task.version == p.current.version then Some(Go(p.updated.updatedAt))
    else if p.Writing? then Some(if p.intent.Finish? then Go(0) else Crash)
    else if p.Raised? then None
    else Some(input)
  }

  // A driver whose commit came too late finds its task cancelled.
  lemma LateFinishesAreDiscarded(cfg: Config, c: Cell, intent: Intent, current: AgentTask, updated: AgentTask)
    requires IntentOk(cfg, c, intent) && WriteOk(c, intent, current, updated) && intent.Finish?
    requires c.task.version != current.version
    ensures Load(intent, c.task, 0) == Lost(intent, ConcurrentUpdate(c.task.id, current.version, c.task.version))
  {
    hide Resumable;
    assert Drives(c.task, intent.driver);
  }

  lemma FreshWritesLoadAgain(cfg: Config, c: Cell, intent: Intent, current: AgentTask, updated: AgentTask)
    requires CellOk(cfg, c) && WriteOk(c, intent, current, updated) && c.task.version == current.version
    ensures Load(intent, c.task, updated.updatedAt) == Writing(intent, c.task, updated)
  {
    hide CellOk;
  }

  lemma WritesMatch(cfg: Config, c: Cell, p: Process, atomic: Process, now: int)
    requires cfg.Valid() && CellOk(cfg, c) && ProcessOk(cfg, c, p) && p.Writing? && StandsFor(p, atomic)
    requires atomic.Loading?
    ensures var instead := Instead(c, p, atomic, Go(now));
            && instead.Some? && InputFits(atomic, instead.value)
            && AtomicAdvance(cfg, c, atomic, instead.value).0 == Advance(cfg, c, p, Go(now)).0
            && StandsFor(Advance(cfg, c, p, Go(now)).1, AtomicAdvance(cfg, c, atomic, instead.value).1)
  {
    hide CellOk, ProcessOk, IntentOk, WriteOk, Won, Load;
    WritersAreReady(cfg, c, p);
    if c.task.version == p.current.version {
      FreshWritesLoadAgain(cfg, c, p.intent, p.current, p.updated);
    } else if p.intent.Finish? {
      LateFinishesAreDiscarded(cfg, c, p.intent, p.current, p.updated);
    }
  }

  lemma StepMatches(cfg: Config, c: Cell, p: Process, atomic: Process, input: Input)
    requires cfg.Valid() && CellOk(cfg, c) && ProcessOk(cfg, c, p) && InputFits(p, input)
    requires StandsFor(p, atomic) && !atomic.Writing?
    ensures var (cell, next) := Advance(cfg, c, p, input);
            match Instead(c, p, atomic, input)
            case None => cell == c && StandsFor(next, atomic)
            case Some(instead) =>
              && InputFits(atomic, instead)
              && var (same, other) := AtomicAdvance(cfg, c, atomic, instead);
                 same == cell && StandsFor(next, other) && !other.Writing?
  {
    hide CellOk, ProcessOk, Won, Load, Lost, AfterReply;
    if p.Writing? && !input.Crash? {
      WritesMatch(cfg, c, p, atomic, input.now);
    }
    WonIsNotWriting(cfg, c, p);
  }

  lemma WonIsNotWriting(cfg: Config, c: Cell, p: Process)
    ensures forall intent, updated, position :: !Won(intent, updated, position).Writing?
    ensures forall intent, error :: !Lost(intent, error).Writing?
    ensures forall intent, current, now :: Load(intent, current, now).Writing? ==>
              Load(intent, current, now).intent == intent
  {}

  ghost predicate NobodyWrites(atomic: State) {
    forall pid | pid in atomic.actors :: !atomic.actors[pid].process.Writing?
  }

  // The atomic moves that stand in for one interleaved move.
  function MovesInstead(s: State, atomic: State, m: Move): seq<Move>
    requires Enabled(s, m) && (m.Act? ==> m.pid in atomic.actors)
  {
    if !m.Act? || s.actors[m.pid].id !in s.cells then [m]
    else
      match Instead(s.cells[s.actors[m.pid].id], s.actors[m.pid].process, atomic.actors[m.pid].process, m.input)
      case None => []
      case Some(input) => [Act(m.pid, input)]
  }

  lemma OneAtomicMove(cfg: Config, s: State, m: Move)
    requires Enabled(s, m)
    ensures AtomicLegal(cfg, s, [m]) && AtomicAfter(cfg, s, [m]) == AtomicPerform(cfg, s, m)
  {
    hide Enabled, AtomicPerform;
    assert [m][1..] == [];
  }

  ghost predicate Follows(cfg: Config, s: State, atomic: State, instead: seq<Move>) {
    && AtomicLegal(cfg, atomic, instead)
    && Matches(s, AtomicAfter(cfg, atomic, instead))
    && NobodyWrites(AtomicAfter(cfg, atomic, instead))
  }

  // One actor on one task has moved in both.
  lemma MovedAlike(s: State, atomic: State, pid: nat, cell: Cell, next: Process, other: Process)
    requires Matches(s, atomic) && NobodyWrites(atomic) && pid in s.actors && s.actors[pid].id in s.cells
    requires StandsFor(next, other) && !other.Writing?
    ensures var id := s.actors[pid].id;
            var t := State(atomic.cells[id := cell], atomic.actors[pid := Actor(id, other)]);
            Matches(State(s.cells[id := cell], s.actors[pid := Actor(id, next)]), t) && NobodyWrites(t)
  {
    hide StandsFor;
  }

  lemma ActIsFollowed(cfg: Config, s: State, atomic: State, m: Move)
    requires Inv(cfg, s) && m.Act? && Enabled(s, m) && s.actors[m.pid].id in s.cells
    requires Matches(s, atomic) && NobodyWrites(atomic)
    ensures Follows(cfg, Perform(cfg, s, m), atomic, MovesInstead(s, atomic, m))
  {
    hide CellOk, ProcessOk, Advance, AtomicAdvance, Instead, StandsFor;
    var Actor(id, p) := s.actors[m.pid];
    var c, other := s.cells[id], atomic.actors[m.pid].process;
    var (cell, next) := Advance(cfg, c, p, m.input);
    ActorAndCell(cfg, s, m.pid);
    StepMatches(cfg, c, p, other, m.input);
    match Instead(c, p, other, m.input)
    case None =>
      MovedAlike(s, atomic, m.pid, c, next, other);
      assert atomic.cells[id := c] == atomic.cells;
      assert atomic.actors[m.pid := Actor(id, other)] == atomic.actors;
    case Some(instead) =>
      OneAtomicMove(cfg, atomic, Act(m.pid, instead));
      MovedAlike(s, atomic, m.pid, cell, next, AtomicAdvance(cfg, c, other, instead).1);
  }

  // New tasks, new actors and actors without a task do the same in both.
  lemma NewTasksAreFollowed(cfg: Config, s: State, atomic: State, m: Move)
    requires m.CreateTask? && Enabled(s, m) && Matches(s, atomic) && NobodyWrites(atomic)
    ensures Follows(cfg, Perform(cfg, s, m), atomic, [m])
  {
    hide StandsFor;
    OneAtomicMove(cfg, atomic, m);
  }

  lemma NewActorsAreFollowed(cfg: Config, s: State, atomic: State, m: Move)
    requires m.Spawn? && Enabled(s, m) && Matches(s, atomic) && NobodyWrites(atomic)
    ensures Follows(cfg, Perform(cfg, s, m), atomic, [m])
  {
    OneAtomicMove(cfg, atomic, m);
  }

  lemma StrayActorsAreFollowed(cfg: Config, s: State, atomic: State, m: Move)
    requires Inv(cfg, s) && m.Act? && Enabled(s, m) && s.actors[m.pid].id !in s.cells
    requires Matches(s, atomic) && NobodyWrites(atomic)
    ensures Follows(cfg, Perform(cfg, s, m), atomic, [m])
  {
    hide CellOk, ProcessOk, OneDriver;
    assert ActorOk(cfg, s, s.actors[m.pid]);
    OneAtomicMove(cfg, atomic, m);
  }

  lemma MoveIsFollowed(cfg: Config, s: State, atomic: State, m: Move)
    requires Inv(cfg, s) && Enabled(s, m) && Matches(s, atomic) && NobodyWrites(atomic)
    ensures Follows(cfg, Perform(cfg, s, m), atomic, MovesInstead(s, atomic, m))
  {
    hide Inv, Perform, Follows, NobodyWrites;
    match m
    case CreateTask(_, _, _, _) => NewTasksAreFollowed(cfg, s, atomic, m);
    case Spawn(_, _, _) => NewActorsAreFollowed(cfg, s, atomic, m);
    case Act(pid, _) =>
      if s.actors[pid].id in s.cells {
        ActIsFollowed(cfg, s, atomic, m);
      } else {
        StrayActorsAreFollowed(cfg, s, atomic, m);
      }
  }

  lemma {:induction false} AtomicInSequence(cfg: Config, s: State, first: seq<Move>, rest: seq<Move>)
    requires AtomicLegal(cfg, s, first) && AtomicLegal(cfg, AtomicAfter(cfg, s, first), rest)
    ensures AtomicLegal(cfg, s, first + rest)
    ensures AtomicAfter(cfg, s, first + rest) == AtomicAfter(cfg, AtomicAfter(cfg, s, first), rest)
    decreases |first|
  {
    hide Enabled, AtomicPerform;
    if first == [] {
      assert first + rest == rest;
    } else {
      assert (first + rest)[1..] == first[1..] + rest;
      AtomicInSequence(cfg, AtomicPerform(cfg, s, first[0]), first[1..], rest);
    }
  }

  // Whatever the interleaving, an atomic run leaves the same tasks with the same
  // record of what was done to them.
  lemma {:induction false} InterleavedRunsAreAtomic(cfg: Config, s: State, moves: seq<Move>, atomic: State)
    returns (instead: seq<Move>)
    requires Inv(cfg, s) && Legal(cfg, s, moves) && Matches(s, atomic) && NobodyWrites(atomic)
    ensures Follows(cfg, After(cfg, s, moves), atomic, instead)
    decreases |moves|
  {
    hide Inv, Perform, AtomicPerform, Enabled, Matches, NobodyWrites, MovesInstead;
    if moves == [] {
      instead := [];
    } else {
      var first := StandIns(cfg, s, atomic, moves[0]);
      InvIsInductive(cfg, s, moves[0]);
      var rest := InterleavedRunsAreAtomic(cfg, Perform(cfg, s, moves[0]), moves[1..], AtomicAfter(cfg, atomic, first));
      AtomicInSequence(cfg, atomic, first, rest);
      instead := first + rest;
    }
  }

  lemma StandIns(cfg: Config, s: State, atomic: State, m: Move) returns (instead: seq<Move>)
    requires Inv(cfg, s) && Enabled(s, m) && Matches(s, atomic) && NobodyWrites(atomic)
    ensures Follows(cfg, Perform(cfg, s, m), atomic, instead)
  {
    hide Inv, Follows;
    instead := MovesInstead(s, atomic, m);
    MoveIsFollowed(cfg, s, atomic, m);
  }

  // --- Atomic runs, interleaved -------------------------------------------------------------------

  // A transition that succeeds takes two steps in a row, everything else one.
  function InTwoSteps(s: State, m: Move): seq<Move>
    requires Enabled(s, m)
  {
    if m.Act? && s.actors[m.pid].id in s.cells && s.actors[m.pid].process.Loading? && !m.input.Crash?
       && Load(s.actors[m.pid].process.intent, s.cells[s.actors[m.pid].id].task, m.input.now).Writing? then
      [m] + [Act(m.pid, Go(0))]
    else
      [m]
  }

  lemma ReadThenWrite(cfg: Config, s: State, m: Move)
    requires Enabled(s, m)
    ensures Legal(cfg, s, InTwoSteps(s, m)) && After(cfg, s, InTwoSteps(s, m)) == AtomicPerform(cfg, s, m)
  {
    hide Load, Won, Lost, AfterReply;
    var t := Perform(cfg, s, m);
    OneMove(cfg, s, m);
    if InTwoSteps(s, m) != [m] {
      var Actor(id, p) := s.actors[m.pid];
      var written := Load(p.intent, s.cells[id].task, m.input.now);
      LoadsAreFresh(p.intent, s.cells[id].task, m.input.now);
      assert t == State(s.cells[id := s.cells[id]], s.actors[m.pid := Actor(id, written)]);
      OneMove(cfg, t, Act(m.pid, Go(0)));
      AfterInSequence(cfg, s, [m], [Act(m.pid, Go(0))]);
      var done := Perform(cfg, t, Act(m.pid, Go(0)));
      assert done.cells == AtomicPerform(cfg, s, m).cells;
      assert done.actors == AtomicPerform(cfg, s, m).actors;
    }
  }

  lemma LoadsAreFresh(intent: Intent, current: AgentTask, now: int)
    ensures var p := Load(intent, current, now); p.Writing? ==> p.intent == intent && p.current == current
  {}

  lemma {:induction false} AtomicRunsAreInterleaved(cfg: Config, s: State, moves: seq<Move>)
    returns (steps: seq<Move>)
    requires AtomicLegal(cfg, s, moves)
    ensures Legal(cfg, s, steps) && After(cfg, s, steps) == AtomicAfter(cfg, s, moves)
    decreases |moves|
  {
    hide AtomicPerform, Perform, Enabled;
    if moves == [] {
      steps := [];
    } else {
      var first := InTwoSteps(s, moves[0]);
      ReadThenWrite(cfg, s, moves[0]);
      var rest := AtomicRunsAreInterleaved(cfg, AtomicPerform(cfg, s, moves[0]), moves[1..]);
      AfterInSequence(cfg, s, first, rest);
      steps := first + rest;
    }
  }

  // --- The stores are the same ------------------------------------------------------------------------

  ghost predicate Reachable(cfg: Config, store: Store) {
    exists moves :: Legal(cfg, EMPTY, moves) && After(cfg, EMPTY, moves).Store() == store
  }

  ghost predicate AtomicallyReachable(cfg: Config, store: Store) {
    exists moves :: AtomicLegal(cfg, EMPTY, moves) && AtomicAfter(cfg, EMPTY, moves).Store() == store
  }

  // The stores any interleaving can reach are those of the atomic protocol.
  lemma SameReachableStores(cfg: Config, store: Store)
    requires cfg.Valid()
    ensures Reachable(cfg, store) <==> AtomicallyReachable(cfg, store)
  {
    hide Inv, Perform, AtomicPerform, Enabled;
    if Reachable(cfg, store) {
      var moves :| Legal(cfg, EMPTY, moves) && After(cfg, EMPTY, moves).Store() == store;
      InvInitially(cfg);
      var instead := InterleavedRunsAreAtomic(cfg, EMPTY, moves, EMPTY);
      assert AtomicAfter(cfg, EMPTY, instead).Store() == store;
    }
    if AtomicallyReachable(cfg, store) {
      var moves :| AtomicLegal(cfg, EMPTY, moves) && AtomicAfter(cfg, EMPTY, moves).Store() == store;
      var steps := AtomicRunsAreInterleaved(cfg, EMPTY, moves);
      assert After(cfg, EMPTY, steps).Store() == store;
    }
  }
}
