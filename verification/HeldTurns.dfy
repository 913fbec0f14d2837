/** What becomes of a tool-calling turn, as a whole: it runs at most once, it waits
    for its approval if any of its calls needs one, and denied it never runs. */
module HeldTurns {
  import opened Wrappers
  import opened Messages
  import opened Tasks
  import opened RunLogic
  import opened Protocol
  import opened ProtocolInvariant
  import opened ProtocolTheorems

  // --- The turn that is still to be run --------------------------------------------------------

  // A paused version is left by anything but its approval.
  predicate Denies(e: Event) {
    e.Committed? && e.before.status == AwaitingApproval && !e.intent.Approve?
  }

  // The last thing the model said, unless it has been run or denied since.
  function Outstanding(log: seq<Event>): Option<Completion> {
    if log == [] then None
    else
      var e := log[|log| - 1];
      if e.Heard? then Some(e.completion)
      else if e.Ran? || Denies(e) then None
      else Outstanding(log[..|log| - 1])
  }

  function Replies(log: seq<Event>): nat {
    if log == [] then 0 else Replies(log[..|log| - 1]) + if log[|log| - 1].Heard? then 1 else 0
  }

  lemma OneMoreEvent(log: seq<Event>, e: Event)
    ensures Outstanding(log + [e])
            == if e.Heard? then Some(e.completion) else if e.Ran? || Denies(e) then None else Outstanding(log)
    ensures Replies(log + [e]) == Replies(log) + if e.Heard? then 1 else 0
    ensures ModelCalls(log + [e]) == ModelCalls(log) + if e.Asked? then 1 else 0
  {
    assert (log + [e])[..|log|] == log;
  }

  predicate Holds(log: seq<Event>, calls: seq<ToolCall>) {
    var turn := Outstanding(log);
    turn.Some? && turn.value.stopReason == ToolUse && turn.value.toolCalls == calls
  }

  // Nothing has been heard or run since this approval.
  predicate JustApproved(log: seq<Event>, approval: nat) {
    approval < |log| && forall m | approval < m < |log| :: !log[m].Heard? && !log[m].Ran?
  }

  // --- The invariant -----------------------------------------------------------------------------

  predicate IntentHolds(log: seq<Event>, intent: Intent) {
    intent.Finish? && intent.checkpoint.Some? ==> Holds(log, intent.checkpoint.value.PendingCalls())
  }

  // Whoever is about to run or to hold a turn has the outstanding one in hand.
  predicate ProcessHolds(log: seq<Event>, p: Process) {
    match p
    case BeforeTools(_, calls, approval) => Holds(log, calls) && (approval.Some? ==> JustApproved(log, approval.value))
    case Loading(intent) => IntentHolds(log, intent)
    case Writing(intent, _, _) => IntentHolds(log, intent)
    case InModel(_) => Replies(log) < ModelCalls(log)
    case _ => true
  }

  predicate TaskHolds(log: seq<Event>, t: AgentTask) {
    t.checkpoint.Some? ==> Holds(log, t.checkpoint.value.PendingCalls())
  }

  predicate EventHolds(log: seq<Event>, e: Event) {
    && (e.Ran? ==> Holds(log, e.calls) && (e.approval.Some? ==> JustApproved(log, e.approval.value)))
    && (e.Committed? && e.before.status == AwaitingApproval ==>
          e.before.checkpoint.Some? && Holds(log, e.before.checkpoint.value.PendingCalls()))
  }

  ghost predicate LogHolds(log: seq<Event>) {
    && Replies(log) <= ModelCalls(log)
    && forall i | 0 <= i < |log| :: EventHolds(log[..i], log[i])
  }

  ghost predicate CellHolds(c: Cell) {
    LogHolds(c.log) && TaskHolds(c.log, c.task)
  }

  // --- One step ------------------------------------------------------------------------------------

  lemma LogHoldsOn(log: seq<Event>, e: Event)
    requires LogHolds(log) && EventHolds(log, e)
    requires e.Heard? ==> Replies(log) < ModelCalls(log)
    ensures LogHolds(log + [e])
  {
    hide EventHolds, Replies, ModelCalls, Outstanding;
    OneMoreEvent(log, e);
    var all := log + [e];
    forall i | 0 <= i < |all|
      ensures EventHolds(all[..i], all[i])
    {
      assert all[..i] == log[..i];
      assert log[..|log|] == log;
    }
  }

  lemma AskingHolds(cfg: Config, c: Cell, d: Driver, now: int)
    requires CellHolds(c) && c.task.checkpoint.None?
    ensures var (cell, next) := Advance(cfg, c, Asking(d), Go(now)); CellHolds(cell) && ProcessHolds(cell.log, next)
  {
    hide Replies, ModelCalls, Outstanding, LogHolds;
    OneMoreEvent(c.log, Asked(d.run.messages));
    LogHoldsOn(c.log, Asked(d.run.messages));
    assert Replies(c.log) <= ModelCalls(c.log) by {
      RepliesAreAsked(c.log);
    }
  }

  lemma RepliesAreAsked(log: seq<Event>)
    requires LogHolds(log)
    ensures Replies(log) <= ModelCalls(log)
  {}

  lemma ReplyHolds(cfg: Config, c: Cell, d: Driver, reply: ModelReply)
    requires CellHolds(c) && c.task.checkpoint.None? && Replies(c.log) < ModelCalls(c.log) && reply.Valid()
    ensures var (cell, next) := Advance(cfg, c, InModel(d), Reply(reply));
            CellHolds(cell) && ProcessHolds(cell.log, next)
  {
    hide Replies, ModelCalls, Outstanding, LogHolds;
    if reply.Replied? {
      OneMoreEvent(c.log, Heard(reply.completion));
      LogHoldsOn(c.log, Heard(reply.completion));
    }
  }

  lemma RunningHolds(cfg: Config, c: Cell, p: Process, now: int)
    requires CellHolds(c) && c.task.checkpoint.None? && p.BeforeTools? && ProcessHolds(c.log, p)
    ensures var (cell, next) := Advance(cfg, c, p, Go(now)); CellHolds(cell) && ProcessHolds(cell.log, next)
  {
    hide Replies, ModelCalls, Outstanding, LogHolds, Holds, JustApproved;
    LogHoldsOn(c.log, Ran(p.calls, p.approval));
  }

  lemma ResultsHold(cfg: Config, c: Cell, p: Process, results: seq<ToolResult>)
    requires CellHolds(c) && c.task.checkpoint.None? && p.InTools? && Answers(p.calls, results)
    ensures var (cell, next) := Advance(cfg, c, p, Results(results)); CellHolds(cell) && ProcessHolds(cell.log, next)
  {
    hide Replies, ModelCalls, Outstanding, LogHolds;
    LogHoldsOn(c.log, Told(results));
  }

  // A write that lands leaves its own turn outstanding, or an approved one.
  lemma LandingHolds(cfg: Config, c: Cell, intent: Intent, current: AgentTask, updated: AgentTask)
    requires CellOk(cfg, c) && IntentOk(cfg, c, intent) && WriteOk(c, intent, current, updated)
    requires c.task.version == current.version
    requires CellHolds(c) && IntentHolds(c.log, intent)
    ensures CellHolds(Landed(c, intent, updated))
    ensures ProcessHolds(Landed(c, intent, updated).log, Won(intent, updated, |c.log|))
  {
    hide CommitsOk, ApprovalsOk, BatchesOk, RequestsOk, BudgetOk, PolicyOk, Resumable, LifecyclePath, DriverOk;
    hide Replies, ModelCalls, Outstanding, LogHolds;
    var e := Committed(intent, c.task, updated);
    WinningWriteIsFresh(c, intent, current, updated);
    OneMoreEvent(c.log, e);
    LogHoldsOn(c.log, e);
    if intent.Approve? {
      ApprovalsReleaseWhatIsStored(cfg, c, intent);
    }
  }

  lemma WritingHolds(cfg: Config, c: Cell, p: Process, now: int)
    requires CellOk(cfg, c) && p.Writing? && ProcessOk(cfg, c, p) && CellHolds(c) && ProcessHolds(c.log, p)
    ensures var (cell, next) := Advance(cfg, c, p, Go(now)); CellHolds(cell) && ProcessHolds(cell.log, next)
  {
    hide CellOk, ProcessOk, IntentOk, WriteOk, CellHolds, IntentHolds, Won;
    WritersAreReady(cfg, c, p);
    if c.task.version == p.current.version {
      LandingHolds(cfg, c, p.intent, p.current, p.updated);
      assert Advance(cfg, c, p, Go(now)) == (Landed(c, p.intent, p.updated), Won(p.intent, p.updated, |c.log|));
    }
  }

  // Every other step leaves the log alone and takes no new turn in hand.
  lemma QuietHolds(cfg: Config, c: Cell, p: Process, input: Input)
    requires InputFits(p, input) && ProcessHolds(c.log, p)
    requires input.Crash? || !(p.Asking? || p.InModel? || p.BeforeTools? || p.InTools? || p.Writing?)
    ensures var (cell, next) := Advance(cfg, c, p, input); cell == c && ProcessHolds(cell.log, next)
  {
    hide Holds, Replies, ModelCalls, JustApproved;
  }

  // While a driver is at work its task holds no checkpoint.
  lemma DriversHoldTheTurn(cfg: Config, c: Cell, p: Process)
    requires CellOk(cfg, c) && ProcessOk(cfg, c, p) && p.Live()
    ensures c.task.checkpoint.None? && c.task.status != AwaitingApproval
  {
    hide CommitsOk, ApprovalsOk, BatchesOk, RequestsOk, BudgetOk, PolicyOk, Resumable, LifecyclePath, OnToolTurn;
    hide AtLoopHead, AskingTheModel, IsApproval;
    assert Drives(c.task, p.TheDriver());
  }

  lemma StepHolds(cfg: Config, c: Cell, p: Process, input: Input)
    requires CellOk(cfg, c) && ProcessOk(cfg, c, p) && InputFits(p, input)
    requires CellHolds(c) && ProcessHolds(c.log, p)
    ensures var (cell, next) := Advance(cfg, c, p, input); CellHolds(cell) && ProcessHolds(cell.log, next)
  {
    hide CellOk, ProcessOk, CellHolds, Advance, Holds, IntentHolds, Replies, ModelCalls, JustApproved;
    if p.Live() {
      DriversHoldTheTurn(cfg, c, p);
    }
    match input
    case Crash => QuietHolds(cfg, c, p, input);
    case Reply(reply) => ReplyHolds(cfg, c, p.driver, reply);
    case Results(results) => ResultsHold(cfg, c, p, results);
    case Go(now) =>
      match p
      case Asking(d) => AskingHolds(cfg, c, d, now);
      case BeforeTools(_, _, _) => RunningHolds(cfg, c, p, now);
      case Writing(_, _, _) => WritingHolds(cfg, c, p, now);
      case _ => QuietHolds(cfg, c, p, input);
  }

  // A commit under a live driver takes nothing out of its hands.
  lemma CommitTakesNothing(log: seq<Event>, e: Event, q: Process)
    requires ProcessHolds(log, q) && e.Committed? && e.before.status != AwaitingApproval
    ensures ProcessHolds(log + [e], q)
  {
    hide Replies, ModelCalls, Outstanding;
    OneMoreEvent(log, e);
  }

  lemma OthersHold(cfg: Config, c: Cell, p: Process, input: Input, q: Process)
    requires cfg.Valid() && CellOk(cfg, c) && ProcessOk(cfg, c, p) && InputFits(p, input)
    requires ProcessOk(cfg, c, q) && ProcessHolds(c.log, q) && !(p.Live() && q.Live())
    ensures ProcessHolds(Advance(cfg, c, p, input).0.log, q)
  {
    hide CellOk, ProcessOk, Advance, Holds, Replies, ModelCalls, JustApproved;
    if q.Live() {
      DriversHoldTheTurn(cfg, c, q);
      StepOnTheTask(cfg, c, p, input);
      if p.Writing? {
        CommitTakesNothing(c.log, Committed(p.intent, c.task, p.updated), q);
      }
    }
  }

  // --- Every run -------------------------------------------------------------------------------------

  ghost predicate AllHold(s: State) {
    && (forall id | id in s.cells :: CellHolds(s.cells[id]))
    && (forall pid | pid in s.actors && s.actors[pid].id in s.cells ::
          ProcessHolds(s.cells[s.actors[pid].id].log, s.actors[pid].process))
  }

  lemma ActHolds(cfg: Config, s: State, m: Move)
    requires Inv(cfg, s) && m.Act? && Enabled(s, m) && s.actors[m.pid].id in s.cells && AllHold(s)
    ensures AllHold(Perform(cfg, s, m))
  {
    hide CellOk, ProcessOk, Advance, CellHolds, ProcessHolds;
    var Actor(id, p) := s.actors[m.pid];
    var t := Perform(cfg, s, m);
    ActorAndCell(cfg, s, m.pid);
    StepHolds(cfg, s.cells[id], p, m.input);
    forall pid | pid in t.actors && t.actors[pid].id in t.cells
      ensures ProcessHolds(t.cells[t.actors[pid].id].log, t.actors[pid].process)
    {
      if pid != m.pid && t.actors[pid].id == id {
        ActorAndCell(cfg, s, pid);
        OthersHold(cfg, s.cells[id], p, m.input, s.actors[pid].process);
      }
    }
  }

  lemma MoveHolds(cfg: Config, s: State, m: Move)
    requires Inv(cfg, s) && Enabled(s, m) && AllHold(s)
    ensures AllHold(Perform(cfg, s, m))
  {
    hide CellOk, ProcessOk, Advance;
    match m
    case Act(pid, _) =>
      if s.actors[pid].id in s.cells {
        ActHolds(cfg, s, m);
      }
    case CreateTask(id, _, _, _) =>
      forall pid | pid in s.actors && s.actors[pid].id == id
        ensures ProcessHolds([], s.actors[pid].process)
      {
        assert ActorOk(cfg, s, s.actors[pid]);
      }
    case Spawn(_, _, _) =>
  }

  lemma {:induction false} MovesHold(cfg: Config, s: State, moves: seq<Move>)
    requires Inv(cfg, s) && Legal(cfg, s, moves) && AllHold(s)
    ensures AllHold(After(cfg, s, moves))
    decreases |moves|
  {
    hide Inv, Perform, Enabled, AllHold;
    if moves != [] {
      MoveHolds(cfg, s, moves[0]);
      InvIsInductive(cfg, s, moves[0]);
      MovesHold(cfg, Perform(cfg, s, moves[0]), moves[1..]);
    }
  }

  lemma ReachedLogsHold(cfg: Config, moves: seq<Move>, id: TaskId)
    requires cfg.Valid() && Legal(cfg, EMPTY, moves) && id in Reached(cfg, moves).cells
    ensures LogHolds(Reached(cfg, moves).cells[id].log)
  {
    hide LogHolds, TaskHolds, ProcessHolds;
    InvInitially(cfg);
    MovesHold(cfg, EMPTY, moves);
    assert CellHolds(Reached(cfg, moves).cells[id]);
  }

  // --- Turns, read off the log ---------------------------------------------------------------------------

  // Event i belongs to the turn the model spoke at k: it is the last thing heard
  // before i.
  predicate InTurn(log: seq<Event>, k: nat, i: nat) {
    k < i < |log| && log[k].Heard? && forall m | k < m < i :: !log[m].Heard?
  }

  // What is outstanding is the last thing heard, if nothing has settled it since.
  lemma {:induction false} OutstandingIsTheLastHeard(log: seq<Event>, k: nat)
    requires k < |log| && log[k].Heard? && forall m | k < m < |log| :: !log[m].Heard?
    ensures Outstanding(log)
            == if exists m | k < m < |log| :: log[m].Ran? || Denies(log[m]) then None else Some(log[k].completion)
  {
    if k < |log| - 1 {
      var front := log[..|log| - 1];
      OutstandingIsTheLastHeard(front, k);
      assert forall m | k < m < |front| :: front[m] == log[m];
    }
  }

  lemma {:induction false} OutstandingWasHeard(log: seq<Event>) returns (k: nat)
    requires Outstanding(log).Some?
    ensures k < |log| && log[k].Heard? && log[k].completion == Outstanding(log).value
    ensures forall m | k < m < |log| :: !log[m].Heard?
  {
    k := |log| - 1;
    if !log[k].Heard? {
      k := OutstandingWasHeard(log[..|log| - 1]);
    }
  }

  // What is known of the turn an event belongs to, when that event needs it held.
  lemma HoldsInTurn(log: seq<Event>, k: nat, i: nat, calls: seq<ToolCall>)
    requires InTurn(log, k, i) && Holds(log[..i], calls)
    ensures log[k].completion.stopReason == ToolUse && log[k].completion.toolCalls == calls
    ensures forall m | k < m < i :: !log[m].Ran? && !Denies(log[m])
  {
    OutstandingIsTheLastHeard(log[..i], k);
    forall m | k < m < i
      ensures !log[m].Ran? && !Denies(log[m])
    {
      assert log[..i][m] == log[m];
    }
  }

  lemma BatchesRunTheirTurn(log: seq<Event>, k: nat, i: nat)
    requires LogHolds(log) && InTurn(log, k, i)
    ensures log[i].Ran? ==>
              && log[k].completion.stopReason == ToolUse
              && log[k].completion.toolCalls == log[i].calls
              && (log[i].approval.Some? ==> JustApproved(log[..i], log[i].approval.value))
              && forall m | k < m < i :: !log[m].Ran? && !Denies(log[m])
  {
    hide Holds, Replies, ModelCalls, JustApproved, Outstanding;
    assert EventHolds(log[..i], log[i]);
    if log[i].Ran? {
      HoldsInTurn(log, k, i, log[i].calls);
    }
  }

  // Every batch is a turn of the model's, whole: the calls of the last thing it
  // said, with nothing run and nothing denied in between.
  lemma EveryBatchIsAWholeTurn(cfg: Config, moves: seq<Move>, id: TaskId, i: nat) returns (k: nat)
    requires cfg.Valid() && Legal(cfg, EMPTY, moves) && id in Reached(cfg, moves).cells
    requires i < |Reached(cfg, moves).cells[id].log| && Reached(cfg, moves).cells[id].log[i].Ran?
    ensures var log := Reached(cfg, moves).cells[id].log;
            && InTurn(log, k, i)
            && log[k].completion.stopReason == ToolUse
            && log[k].completion.toolCalls == log[i].calls
            && forall m | k < m < i :: !log[m].Ran? && !Denies(log[m])
  {
    hide Reached, Legal, Holds, Outstanding, Denies, Replies, ModelCalls, JustApproved;
    var log := Reached(cfg, moves).cells[id].log;
    ReachedLogsHold(cfg, moves, id);
    assert EventHolds(log[..i], log[i]);
    assert Outstanding(log[..i]).Some? by {
      HoldersHave(log[..i], log[i].calls);
    }
    k := OutstandingWasHeard(log[..i]);
    assert forall m | 0 <= m < i :: log[..i][m] == log[m];
    HoldsInTurn(log, k, i, log[i].calls);
  }

  lemma HoldersHave(log: seq<Event>, calls: seq<ToolCall>)
    requires Holds(log, calls)
    ensures Outstanding(log).Some?
  {}

  // No turn runs twice.
  lemma NoTurnRunsTwice(cfg: Config, moves: seq<Move>, id: TaskId, k: nat, i: nat, j: nat)
    requires cfg.Valid() && Legal(cfg, EMPTY, moves) && id in Reached(cfg, moves).cells
    requires var log := Reached(cfg, moves).cells[id].log;
             InTurn(log, k, i) && InTurn(log, k, j) && log[i].Ran? && log[j].Ran?
    ensures i == j
  {
    hide Reached, Legal, Holds, Replies, ModelCalls, JustApproved;
    var log := Reached(cfg, moves).cells[id].log;
    ReachedLogsHold(cfg, moves, id);
    BatchesRunTheirTurn(log, k, i);
    BatchesRunTheirTurn(log, k, j);
  }

  // Held calls are released at most once, and with them their whole turn: if any
  // call of a turn needs a human, none of its calls runs, needing one or not, but
  // in the one batch after the approval, given since the model asked, of the exact
  // paused task holding that turn.
  lemma HeldCallsAreReleasedOnce(cfg: Config, moves: seq<Move>, id: TaskId, k: nat, i: nat)
    requires cfg.Valid() && Legal(cfg, EMPTY, moves) && id in Reached(cfg, moves).cells
    requires var log := Reached(cfg, moves).cells[id].log;
             InTurn(log, k, i) && log[i].Ran? && cfg.TripsTheGate(log[k].completion.toolCalls)
    ensures var log := Reached(cfg, moves).cells[id].log;
            && log[i].calls == log[k].completion.toolCalls
            && log[i].approval.Some? && k < log[i].approval.value < i
            && IsApproval(log[log[i].approval.value])
            && log[log[i].approval.value].intent.released.PendingCalls() == log[i].calls
            && (forall m | k < m < |log| && InTurn(log, k, m) && log[m].Ran? :: m == i)
            && (forall j | 0 <= j < |log| && j != i && log[j].Ran? && log[j].approval.Some? ::
                  && log[j].approval.value < j && log[log[j].approval.value].Committed?
                  && log[log[j].approval.value].before.version != log[log[i].approval.value].before.version)
  {
    hide Reached, Legal, Holds, Replies, ModelCalls;
    var log := Reached(cfg, moves).cells[id].log;
    ReachedLogsHold(cfg, moves, id);
    BatchesRunTheirTurn(log, k, i);
    ReleasesGoBackToApprovals(cfg, moves, id);
    ApprovedSince(log, k, i);
    forall m: nat | k < m < |log| && InTurn(log, k, m) && log[m].Ran?
      ensures m == i
    {
      NoTurnRunsTwice(cfg, moves, id, k, i, m);
    }
  }

  lemma ApprovedSince(log: seq<Event>, k: nat, i: nat)
    requires InTurn(log, k, i) && log[i].Ran? && log[i].approval.Some? && JustApproved(log[..i], log[i].approval.value)
    requires log[log[i].approval.value].Committed?
    ensures k < log[i].approval.value < i
  {
    assert log[..i][k] == log[k];
  }

  // A paused version left by a rejection, a cancellation or a fresh run takes its
  // turn with it: the whole turn it held, calls that needed a human and calls that
  // did not, has not run and never does.
  lemma DeniedCallsNeverRun(cfg: Config, moves: seq<Move>, id: TaskId, d: nat) returns (k: nat)
    requires cfg.Valid() && Legal(cfg, EMPTY, moves) && id in Reached(cfg, moves).cells
    requires d < |Reached(cfg, moves).cells[id].log| && Denies(Reached(cfg, moves).cells[id].log[d])
    ensures var log := Reached(cfg, moves).cells[id].log;
            && InTurn(log, k, d)
            && log[d].before.checkpoint.Some?
            && log[k].completion.toolCalls == log[d].before.checkpoint.value.PendingCalls()
            && (forall i | k < i < |log| && InTurn(log, k, i) :: !log[i].Ran?)
            && (forall j | 0 <= j < |log| && log[j].Ran? && log[j].approval.Some? ::
                  && log[j].approval.value < j && log[log[j].approval.value].Committed?
                  && log[log[j].approval.value].before.version != log[d].before.version)
  {
    hide Reached, Legal, Holds, Outstanding, Replies, ModelCalls, JustApproved;
    var log := Reached(cfg, moves).cells[id].log;
    ReachedLogsHold(cfg, moves, id);
    ReleasesGoBackToApprovals(cfg, moves, id);
    assert EventHolds(log[..d], log[d]);
    var calls := log[d].before.checkpoint.value.PendingCalls();
    HoldersHave(log[..d], calls);
    k := OutstandingWasHeard(log[..d]);
    assert forall m | 0 <= m < d :: log[..d][m] == log[m];
    HoldsInTurn(log, k, d, calls);
    forall i: nat | k < i < |log| && InTurn(log, k, i)
      ensures !log[i].Ran?
    {
      BatchesRunTheirTurn(log, k, i);
    }
    DeniedVersionsAreNotReleased(cfg, moves, id, d);
  }

  // --- Batches over a life ---------------------------------------------------------------------------------

  lemma {:induction false} BatchesAreReplies(log: seq<Event>)
    requires forall i | 0 <= i < |log| :: EventHolds(log[..i], log[i])
    ensures ToolBatches(log) + (if Outstanding(log).Some? then 1 else 0) <= Replies(log)
  {
    if log != [] {
      var front, e := log[..|log| - 1], log[|log| - 1];
      forall i | 0 <= i < |front|
        ensures EventHolds(front[..i], front[i])
      {
        assert front[..i] == log[..i];
      }
      BatchesAreReplies(front);
      assert EventHolds(log[..|log| - 1], e);
    }
  }

  // Every batch answers a reply and every reply a call, so the budget of model
  // calls bounds the batches too.
  lemma BatchesStayWithinTheBudget(cfg: Config, moves: seq<Move>, id: TaskId)
    requires cfg.Valid() && Legal(cfg, EMPTY, moves) && id in Reached(cfg, moves).cells
    ensures var log := Reached(cfg, moves).cells[id].log;
            ToolBatches(log) <= Replies(log) <= ModelCalls(log) <= cfg.maxSteps * Starts(log)
  {
    hide Reached, Legal, EventHolds, Outstanding;
    ReachedLogsHold(cfg, moves, id);
    BatchesAreReplies(Reached(cfg, moves).cells[id].log);
    BudgetOverAWholeLife(cfg, moves, id);
  }
}
