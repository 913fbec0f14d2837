/** The inductive invariant of the protocol: what every step of every actor keeps. */
module ProtocolInvariant {
  import opened Wrappers
  import opened Messages
  import opened Tasks
  import opened RunLogic
  import opened Protocol

  // --- The task and its log ---------------------------------------------------------

  // A paused task, and only a paused task, holds a checkpoint, and it is one the
  // run can be continued from, with the counters the log accounts for.
  ghost predicate CheckpointOk(cfg: Config, c: Cell) {
    && (c.task.status == AwaitingApproval <==> c.task.checkpoint.Some?)
    && (c.task.checkpoint.Some? ==>
          && Resumable(cfg, c.task.checkpoint.value)
          && c.task.checkpoint.value.steps == CallsInRun(c.log)
          && c.task.checkpoint.value.usage == UsageInRun(c.log)
          && c.task.history != []
          && c.task.history[|c.task.history| - 1].reason
             == ApprovalRequired(cfg.NamesToApprove(c.task.checkpoint.value.PendingCalls())))
  }

  // Commits come in version order, each one version further than what it
  // replaced, and the newest is what is stored.
  ghost predicate CommitsOk(c: Cell) {
    && (forall i | 0 <= i < |c.log| && c.log[i].Committed? ::
          && c.log[i].after.version == c.log[i].before.version + 1
          && c.log[i].after.version <= c.task.version
          && (c.log[i].after.version == c.task.version ==> c.log[i].after == c.task))
    && (forall i, j | 0 <= i < j < |c.log| && c.log[i].Committed? && c.log[j].Committed? ::
          c.log[i].after.version <= c.log[j].before.version)
  }

  ghost predicate IsApproval(e: Event) {
    && e.Committed? && e.intent.Approve?
    && e.before.status == AwaitingApproval
    && e.before == e.intent.paused
    && e.before.checkpoint == Some(e.intent.released)
  }

  ghost predicate ApprovalsOk(c: Cell) {
    forall i | 0 <= i < |c.log| && c.log[i].Committed? && c.log[i].intent.Approve? :: IsApproval(c.log[i])
  }

  // Unreleased batches hold no call that needs a human; a released one is the
  // whole held turn of the approval it points back to, and no two point to the
  // same approval.
  ghost predicate BatchesOk(cfg: Config, log: seq<Event>) {
    && (forall i | 0 <= i < |log| && log[i].Ran? && log[i].approval.None? :: !cfg.TripsTheGate(log[i].calls))
    && (forall i | 0 <= i < |log| && log[i].Ran? && log[i].approval.Some? ::
          && log[i].approval.value < i
          && IsApproval(log[log[i].approval.value])
          && log[i].calls == log[log[i].approval.value].intent.released.PendingCalls())
    && (forall i, j | 0 <= i < j < |log| && log[i].Ran? && log[j].Ran? && log[i].approval.Some? ::
          log[i].approval != log[j].approval)
  }

  // Every request sent to the model is a conversation it may continue.
  ghost predicate RequestsOk(log: seq<Event>) {
    forall i | 0 <= i < |log| && log[i].Asked? :: Conversation(log[i].messages)
  }

  // History and model calls against one step budget per start.
  ghost predicate BudgetOk(cfg: Config, c: Cell) {
    var m, allowance := cfg.maxSteps, Allowance(cfg.maxSteps, c.log);
    if Starts(c.log) == 0 then
      && (c.task.status == Pending || c.task.status == Cancelled)
      && |c.task.history| <= (if c.task.status == Pending then 0 else 1)
      && ModelCalls(c.log) == 0
    else
      && c.task.status != Pending
      && ModelCalls(c.log) + m <= allowance + CallsInRun(c.log)
      && CallsInRun(c.log) <= m
      && StepsAtEntry(c.log) <= m
      && (c.task.status == AwaitingApproval && c.task.checkpoint.Some? ==>
            |c.task.history| + 2 * m <= 2 * allowance + 2 * c.task.checkpoint.value.steps)
      && (c.task.status == Running ==> |c.task.history| + 2 * m <= 2 * allowance + 2 * StepsAtEntry(c.log) + 1)
      && |c.task.history| <= 2 * allowance + 2
  }

  // Second-person policy: no approval on record is by the task's requester.
  ghost predicate PolicyOk(cfg: Config, t: AgentTask) {
    cfg.requiresSecondPerson ==>
      forall i | 0 <= i < |t.history| && t.history[i].reason.ApprovedBy? ::
        t.history[i].reason.approver != t.requestedBy
  }

  ghost predicate CellOk(cfg: Config, c: Cell) {
    && WellFormedTask(c.task)
    && CheckpointOk(cfg, c)
    && CommitsOk(c)
    && ApprovalsOk(c)
    && BatchesOk(cfg, c.log)
    && RequestsOk(c.log)
    && BudgetOk(cfg, c)
    && PolicyOk(cfg, c.task)
  }

  // --- One process against its cell --------------------------------------------------

  // Something read earlier: an older version, or exactly what is stored now.
  predicate Snapshot(t: AgentTask, read: AgentTask) {
    && t.SameIdentity(read)
    && read.version <= t.version
    && (read.version == t.version ==> read == t)
  }

  // A live driver's task is still the one it committed, or was cancelled since.
  predicate Drives(t: AgentTask, d: Driver) {
    || (t.status == Running && t.version == d.version)
    || (t.status == Cancelled && t.version == d.version + 1)
  }

  predicate DriverOk(c: Cell, d: Driver) {
    && Drives(c.task, d)
    && Starts(c.log) > 0
    && d.run.usage == UsageInRun(c.log)
    && StepsAtEntry(c.log) <= d.run.steps
  }

  ghost predicate IntentOk(cfg: Config, c: Cell, intent: Intent) {
    match intent
    case Start => true
    case Cancel(_, _) => true
    case Reject(paused, _, _) => Snapshot(c.task, paused) && paused.status == AwaitingApproval
    case Approve(paused, released, approver, _) =>
      && Snapshot(c.task, paused) && paused.status == AwaitingApproval
      && paused.checkpoint == Some(released)
      && (cfg.requiresSecondPerson ==> approver != c.task.requestedBy)
    case Finish(d, status, reason, _, checkpoint) =>
      && DriverOk(c, d)
      && d.run.steps == CallsInRun(c.log)
      && (status == Failed || status == Completed || status == AwaitingApproval)
      && !reason.ApprovedBy?
      && (checkpoint.Some? <==> status == AwaitingApproval)
      && (checkpoint.Some? ==>
            && Resumable(cfg, checkpoint.value)
            && Resuming(checkpoint.value) == d.run
            && reason == ApprovalRequired(cfg.NamesToApprove(checkpoint.value.PendingCalls()))
            && StepsAtEntry(c.log) < d.run.steps)
  }

  ghost predicate WriteOk(c: Cell, intent: Intent, current: AgentTask, updated: AgentTask) {
    && Snapshot(c.task, current)
    && (intent.ExpectedVersion().Some? ==> current.version == intent.ExpectedVersion().value)
    && (intent.Finish? ==> current.version == intent.driver.version)
    && current.TransitionTo(intent.Target(), intent.Text(), intent.NewCheckpoint(),
                            updated.updatedAt) == Success(updated)
  }

  // A result handed back to a caller.
  ghost predicate ResultOk(r: RunResult, ending: Ending) {
    match ending
    case Settled =>
      && (r.task.status == Completed || r.task.status == Failed || r.task.status == AwaitingApproval)
      && r.task.history != []
      && r.detail == r.task.history[|r.task.history| - 1].reason
      && (r.task.status == AwaitingApproval <==> r.task.checkpoint.Some?)
      && r.pendingCalls == (if r.task.checkpoint.Some? then r.task.checkpoint.value.PendingCalls() else [])
    case _ => r.task.status == Cancelled && r.detail == RunStopped(Cancelled) && r.output == "" && r.pendingCalls == []
  }

  ghost predicate ProcessOk(cfg: Config, c: Cell, p: Process) {
    match p
    case CheckingPolicy(_, _) => true
    case FindingPaused(request) =>
      request.ApproveRequest? && cfg.requiresSecondPerson ==> request.approver != c.task.requestedBy
    case Loading(intent) => IntentOk(cfg, c, intent)
    case Writing(intent, current, updated) => IntentOk(cfg, c, intent) && WriteOk(c, intent, current, updated)
    case LoopHead(d) => DriverOk(c, d) && d.run.steps == CallsInRun(c.log) && AtLoopHead(cfg, d.run)
    case Asking(d) =>
      && DriverOk(c, d) && d.run.steps == CallsInRun(c.log) + 1 && AskingTheModel(cfg, d.run)
      && StepsAtEntry(c.log) < d.run.steps
    case InModel(d) =>
      && DriverOk(c, d) && d.run.steps == CallsInRun(c.log) && AskingTheModel(cfg, d.run)
      && StepsAtEntry(c.log) < d.run.steps
    case BeforeTools(d, calls, approval) =>
      && DriverOk(c, d) && d.run.steps == CallsInRun(c.log) && OnToolTurn(cfg, d.run)
      && calls == d.run.messages[|d.run.messages| - 1].toolCalls
      && (approval.None? ==> !cfg.TripsTheGate(calls))
      && (approval.Some? ==>
            && approval.value < |c.log|
            && IsApproval(c.log[approval.value])
            && calls == c.log[approval.value].intent.released.PendingCalls()
            && forall i | 0 <= i < |c.log| && c.log[i].Ran? :: c.log[i].approval != approval)
    case InTools(d, calls) =>
      && DriverOk(c, d) && d.run.steps == CallsInRun(c.log) && OnToolTurn(cfg, d.run)
      && calls == d.run.messages[|d.run.messages| - 1].toolCalls
    case Reporting(d, ending) => Drives(c.task, d) && c.task.status == Cancelled && !ending.Settled?
    case Returned(result, ending) => ResultOk(result, ending)
    case Decided(_) => true
    case Raised(error) => !error.NotResumable? && !error.CheckpointMisplaced?
    case Crashed => true
  }

  // --- The system -----------------------------------------------------------------------

  ghost predicate ActorOk(cfg: Config, s: State, a: Actor) {
    if a.id in s.cells then ProcessOk(cfg, s.cells[a.id], a.process)
    else a.process.Initial() || (a.process.Raised? && a.process.error.TaskNotFound?) || a.process.Crashed?
  }

  ghost predicate OneDriver(s: State) {
    forall p, q | p in s.actors && q in s.actors && p != q && s.actors[p].id == s.actors[q].id ::
      !(s.actors[p].process.Live() && s.actors[q].process.Live())
  }

  ghost predicate Inv(cfg: Config, s: State) {
    && cfg.Valid()
    && (forall id | id in s.cells :: s.cells[id].task.id == id && CellOk(cfg, s.cells[id]))
    && (forall pid | pid in s.actors :: ActorOk(cfg, s, s.actors[pid]))
    && OneDriver(s)
  }

  // --- Steps that only add to the log ------------------------------------------------------

  // A model call, a reply or a batch moves the counters of the current run only.
  lemma LoggingInTheLog(m: nat, log: seq<Event>, e: Event)
    requires !e.Committed?
    ensures var all := log + [e];
            && Starts(all) == Starts(log)
            && Allowance(m, all) == Allowance(m, log)
            && StepsAtEntry(all) == StepsAtEntry(log)
            && ModelCalls(all) == ModelCalls(log) + (if e.Asked? then 1 else 0)
            && CallsInRun(all) == CallsInRun(log) + (if e.Asked? then 1 else 0)
            && UsageInRun(all) == (if e.Heard? then UsageInRun(log).Plus(e.completion.usage) else UsageInRun(log))
            && ToolBatches(all) == ToolBatches(log) + (if e.Ran? then 1 else 0)
            && Commits(all) == Commits(log)
  {
    assert (log + [e])[..|log|] == log;
  }

  lemma LoggingKeepsCommits(c: Cell, e: Event)
    requires CommitsOk(c) && ApprovalsOk(c) && !e.Committed?
    ensures CommitsOk(c.Logged(e)) && ApprovalsOk(c.Logged(e))
  {}

  lemma LoggingKeepsBatches(cfg: Config, log: seq<Event>, e: Event)
    requires BatchesOk(cfg, log) && !e.Ran?
    ensures BatchesOk(cfg, log + [e])
  {}

  // A batch may join the log if it holds no call that needs a human, or if it is
  // the whole held turn of an approval no batch goes back to yet.
  lemma BatchKeepsBatches(cfg: Config, log: seq<Event>, e: Event)
    requires BatchesOk(cfg, log) && e.Ran?
    requires e.approval.None? ==> !cfg.TripsTheGate(e.calls)
    requires e.approval.Some? ==>
               && e.approval.value < |log| && IsApproval(log[e.approval.value])
               && e.calls == log[e.approval.value].intent.released.PendingCalls()
               && forall i | 0 <= i < |log| && log[i].Ran? :: log[i].approval != e.approval
    ensures BatchesOk(cfg, log + [e])
  {}

  lemma LoggingKeepsTheCell(cfg: Config, c: Cell, e: Event)
    requires CellOk(cfg, c)
    requires !e.Committed?
    requires c.task.status != AwaitingApproval && Starts(c.log) > 0
    requires e.Asked? ==> CallsInRun(c.log) < cfg.maxSteps && Conversation(e.messages)
    requires BatchesOk(cfg, c.log + [e])
    ensures CellOk(cfg, c.Logged(e))
  {
    LoggingInTheLog(cfg.maxSteps, c.log, e);
    LoggingKeepsCommits(c, e);
    assert RequestsOk(c.log + [e]);
  }

  // --- Commits ------------------------------------------------------------------------------

  // The cell after a winning write.
  function Landed(c: Cell, intent: Intent, updated: AgentTask): Cell {
    Cell(updated, c.log + [Committed(intent, c.task, updated)])
  }

  // What the log functions say after a commit.
  lemma CommitInTheLog(m: nat, log: seq<Event>, e: Event)
    requires e.Committed?
    ensures var all := log + [e];
            && Starts(all) == Starts(log) + (if e.intent.Start? then 1 else 0)
            && ModelCalls(all) == ModelCalls(log)
            && Allowance(m, all) == Allowance(m, log) + (if e.intent.Start? then m else 0)
            && CallsInRun(all) == (if e.intent.Start? then 0 else CallsInRun(log))
            && UsageInRun(all) == (if e.intent.Start? then NO_USAGE else UsageInRun(log))
            && StepsAtEntry(all) == if e.intent.Start? then 0
                                    else if e.intent.Approve? then e.intent.released.steps
                                    else StepsAtEntry(log)
  {
    assert (log + [e])[..|log|] == log;
  }

  // The version check compares numbers, but what it establishes is that the
  // whole stored task is the one that was read.
  lemma WinningWriteIsFresh(c: Cell, intent: Intent, current: AgentTask, updated: AgentTask)
    requires WellFormedTask(c.task) && WriteOk(c, intent, current, updated)
    requires c.task.version == current.version
    ensures current == c.task
    ensures updated == c.task.Moved(intent.Target(), intent.Text(), intent.NewCheckpoint(), updated.updatedAt)
    ensures intent.Target() in Allowed(c.task.status)
    ensures WellFormedTask(updated) && updated.SameIdentity(c.task)
  {
    TransitionKeepsTheTaskWellFormed(current, intent.Target(), intent.Text(), intent.NewCheckpoint(),
                                     updated.updatedAt);
  }

  lemma CommitKeepsCommits(c: Cell, e: Event)
    requires CommitsOk(c)
    requires e.Committed? && e.before == c.task && e.after.version == c.task.version + 1
    ensures CommitsOk(Cell(e.after, c.log + [e]))
  {}

  lemma CommitKeepsBatches(cfg: Config, log: seq<Event>, e: Event)
    requires BatchesOk(cfg, log) && e.Committed?
    ensures BatchesOk(cfg, log + [e])
  {}

  lemma CommitKeepsPolicy(cfg: Config, t: AgentTask, updated: AgentTask, record: StatusTransition)
    requires PolicyOk(cfg, t)
    requires updated.requestedBy == t.requestedBy && updated.history == t.history + [record]
    requires cfg.requiresSecondPerson && record.reason.ApprovedBy? ==> record.reason.approver != t.requestedBy
    ensures PolicyOk(cfg, updated)
  {}

  lemma CommitKeepsTheBudget(cfg: Config, c: Cell, intent: Intent, updated: AgentTask)
    requires cfg.Valid() && WellFormedTask(c.task) && CheckpointOk(cfg, c) && BudgetOk(cfg, c)
    requires intent.Target() in Allowed(c.task.status)
    requires updated.status == intent.Target() && |updated.history| == |c.task.history| + 1
    requires updated.checkpoint == intent.NewCheckpoint()
    requires intent.Approve? ==> c.task.checkpoint == Some(intent.released)
    requires intent.Finish? ==>
               && intent.driver.run.steps == CallsInRun(c.log)
               && (intent.checkpoint.Some? ==> Resuming(intent.checkpoint.value) == intent.driver.run
                                               && StepsAtEntry(c.log) < intent.driver.run.steps)
               && c.task.status == Running
    ensures BudgetOk(cfg, Cell(updated, c.log + [Committed(intent, c.task, updated)]))
  {
    CommitInTheLog(cfg.maxSteps, c.log, Committed(intent, c.task, updated));
    StartsAndAllowance(cfg.maxSteps, c.log);
  }

  lemma {:induction false} StartsAndAllowance(m: nat, log: seq<Event>)
    ensures Starts(log) == 0 ==> Allowance(m, log) == 0
    ensures Starts(log) > 0 ==> Allowance(m, log) >= m
  {
    if log != [] {
      StartsAndAllowance(m, log[..|log| - 1]);
    }
  }

  lemma CommitKeepsRequests(log: seq<Event>, e: Event)
    requires RequestsOk(log) && e.Committed?
    ensures RequestsOk(log + [e])
  {}

  lemma CommitKeepsApprovals(c: Cell, e: Event)
    requires ApprovalsOk(c) && e.Committed?
    requires e.intent.Approve? ==> IsApproval(e)
    ensures ApprovalsOk(Cell(e.after, c.log + [e]))
  {}

  // Only a pause stores a checkpoint, and what it stores is the account of its run.
  lemma CommitKeepsTheCheckpoint(cfg: Config, c: Cell, intent: Intent, updated: AgentTask)
    requires IntentOk(cfg, c, intent)
    requires updated == c.task.Moved(intent.Target(), intent.Text(), intent.NewCheckpoint(), updated.updatedAt)
    ensures CheckpointOk(cfg, Landed(c, intent, updated))
  {
    hide Resumable, Snapshot, Drives, Starts, CallsInRun, UsageInRun, StepsAtEntry;
    var landed := Landed(c, intent, updated);
    match intent
    case Finish(d, status, reason, _, checkpoint) =>
      assert CallsInRun(landed.log) == CallsInRun(c.log) && UsageInRun(landed.log) == UsageInRun(c.log) by {
        CommitInTheLog(cfg.maxSteps, c.log, Committed(intent, c.task, updated));
      }
      assert updated.history[|updated.history| - 1].reason == reason;
    case _ => assert updated.checkpoint.None? && updated.status != AwaitingApproval;
  }

  // The write of an approval releases what is stored when it lands.
  lemma ApprovalsReleaseWhatIsStored(cfg: Config, c: Cell, intent: Intent)
    requires IntentOk(cfg, c, intent) && intent.Approve? && intent.paused.version == c.task.version
    ensures IsApproval(Committed(intent, c.task, c.task)) && c.task.checkpoint == Some(intent.released)
  {}

  // The one write in the protocol keeps everything.
  lemma CommitKeepsTheCell(cfg: Config, c: Cell, intent: Intent, current: AgentTask, updated: AgentTask)
    requires cfg.Valid() && CellOk(cfg, c)
    requires IntentOk(cfg, c, intent) && WriteOk(c, intent, current, updated)
    requires c.task.version == current.version
    ensures CellOk(cfg, Landed(c, intent, updated))
  {
    hide Conversation, PausedConversation, OnToolTurn, LifecyclePath, Resumable, CheckpointOk, CommitsOk, ApprovalsOk;
    hide BatchesOk, RequestsOk, PolicyOk, BudgetOk;
    var e := Committed(intent, c.task, updated);
    WinningWriteIsFresh(c, intent, current, updated);
    if intent.Approve? {
      ApprovalsReleaseWhatIsStored(cfg, c, intent);
    }
    CommitKeepsTheCheckpoint(cfg, c, intent, updated);
    CommitKeepsCommits(c, e);
    CommitKeepsApprovals(c, e);
    CommitKeepsBatches(cfg, c.log, e);
    CommitKeepsRequests(c.log, e);
    CommitKeepsPolicy(cfg, c.task, updated,
                      StatusTransition(c.task.status, intent.Target(), updated.updatedAt, intent.Text()));
    CommitKeepsTheBudget(cfg, c, intent, updated);
  }

  // --- One step of one process -------------------------------------------------------------

  // Between the read and the write: a transition that cannot be made is lost.
  lemma LoadingIsOk(cfg: Config, c: Cell, intent: Intent, now: int)
    requires CellOk(cfg, c) && IntentOk(cfg, c, intent)
    ensures ProcessOk(cfg, c, Load(intent, c.task, now))
    ensures Load(intent, c.task, now).Live() == intent.Finish?
  {
    hide CheckpointOk, CommitsOk, ApprovalsOk, BatchesOk, RequestsOk, BudgetOk, PolicyOk, Resumable, LifecyclePath;
    TransitionKeepsTheTaskWellFormed(c.task, intent.Target(), intent.Text(), intent.NewCheckpoint(), now);
  }

  lemma PausedTasksWereStarted(cfg: Config, c: Cell)
    requires CellOk(cfg, c) && c.task.status == AwaitingApproval
    ensures Starts(c.log) > 0
  {
    hide CheckpointOk, CommitsOk, ApprovalsOk, BatchesOk, RequestsOk, PolicyOk, LifecyclePath;
  }

  // An approval that lands releases the checkpoint of the very task it replaced,
  // and no batch goes back to it yet.
  lemma ApproverIsOk(cfg: Config, c: Cell, intent: Intent, updated: AgentTask)
    requires CellOk(cfg, c) && IntentOk(cfg, c, intent) && intent.Approve? && intent.paused == c.task
    requires updated.status == Running
    ensures ProcessOk(cfg, Landed(c, intent, updated), Won(intent, updated, |c.log|))
  {
    hide OnToolTurn, LifecyclePath, CommitsOk, ApprovalsOk, BatchesOk, RequestsOk, PolicyOk, BudgetOk;
    hide Starts, CallsInRun, UsageInRun, StepsAtEntry;
    CommitInTheLog(cfg.maxSteps, c.log, Committed(intent, c.task, updated));
    PausedTasksWereStarted(cfg, c);
    NoBatchGoesBackThere(cfg, c.log);
  }

  // No batch goes back to an approval still to be logged.
  lemma NoBatchGoesBackThere(cfg: Config, log: seq<Event>)
    requires BatchesOk(cfg, log)
    ensures forall i | 0 <= i < |log| && log[i].Ran? :: log[i].approval != Some(|log|)
  {}

  lemma WinnerIsOk(cfg: Config, c: Cell, intent: Intent, current: AgentTask, updated: AgentTask)
    requires cfg.Valid() && CellOk(cfg, c)
    requires IntentOk(cfg, c, intent) && WriteOk(c, intent, current, updated)
    requires c.task.version == current.version
    ensures ProcessOk(cfg, Landed(c, intent, updated), Won(intent, updated, |c.log|))
  {
    hide Conversation, PausedConversation, LifecyclePath, CommitsOk, ApprovalsOk, RequestsOk, PolicyOk, BatchesOk,
        BudgetOk;
    WinningWriteIsFresh(c, intent, current, updated);
    match intent
    case Start =>
      CommitInTheLog(cfg.maxSteps, c.log, Committed(intent, c.task, updated));
      FreshRunIsAtTheHead(cfg, updated.goal);
    case Approve(_, _, _, _) => ApproverIsOk(cfg, c, intent, updated);
    case _ =>
  }

  lemma LoserIsOk(cfg: Config, c: Cell, intent: Intent, current: AgentTask, updated: AgentTask)
    requires IntentOk(cfg, c, intent) && WriteOk(c, intent, current, updated)
    requires c.task.version != current.version
    ensures ProcessOk(cfg, c, Lost(intent, ConcurrentUpdate(c.task.id, current.version, c.task.version)))
  {}

  lemma WritersAreReady(cfg: Config, c: Cell, p: Process)
    requires p.Writing? && ProcessOk(cfg, c, p)
    ensures IntentOk(cfg, c, p.intent) && WriteOk(c, p.intent, p.current, p.updated)
  {
    hide IntentOk, WriteOk;
  }

  lemma WritingIsOk(cfg: Config, c: Cell, p: Process, now: int)
    requires cfg.Valid() && CellOk(cfg, c) && p.Writing? && ProcessOk(cfg, c, p)
    ensures CellOk(cfg, Advance(cfg, c, p, Go(now)).0)
    ensures ProcessOk(cfg, Advance(cfg, c, p, Go(now)).0, Advance(cfg, c, p, Go(now)).1)
  {
    hide CellOk, IntentOk, WriteOk, Won, Lost, ProcessOk;
    var Writing(intent, current, updated) := p;
    WritersAreReady(cfg, c, p);
    if c.task.version == current.version {
      CommitKeepsTheCell(cfg, c, intent, current, updated);
      WinnerIsOk(cfg, c, intent, current, updated);
      assert Advance(cfg, c, p, Go(now)) == (Landed(c, intent, updated), Won(intent, updated, |c.log|));
    } else {
      LoserIsOk(cfg, c, intent, current, updated);
    }
  }

  // Steps that read the task, or nothing at all.
  lemma ReadingIsOk(cfg: Config, c: Cell, p: Process, now: int)
    requires CellOk(cfg, c) && ProcessOk(cfg, c, p)
    requires p.CheckingPolicy? || p.FindingPaused? || p.LoopHead? || p.Reporting? || !p.Live()
    requires !p.Loading? && !p.Writing?
    ensures Advance(cfg, c, p, Go(now)).0 == c
    ensures ProcessOk(cfg, c, Advance(cfg, c, p, Go(now)).1)
  {
    hide CommitsOk, ApprovalsOk, BatchesOk, RequestsOk, BudgetOk, PolicyOk;
  }

  lemma AskingIsOk(cfg: Config, c: Cell, p: Process, now: int)
    requires cfg.Valid() && CellOk(cfg, c) && p.Asking? && ProcessOk(cfg, c, p)
    ensures CellOk(cfg, Advance(cfg, c, p, Go(now)).0)
    ensures ProcessOk(cfg, Advance(cfg, c, p, Go(now)).0, Advance(cfg, c, p, Go(now)).1)
  {
    hide CheckpointOk, CommitsOk, ApprovalsOk, BatchesOk, RequestsOk, BudgetOk, PolicyOk;
    LoggingInTheLog(cfg.maxSteps, c.log, Asked(p.driver.run.messages));
    LoggingKeepsBatches(cfg, c.log, Asked(p.driver.run.messages));
    LoggingKeepsTheCell(cfg, c, Asked(p.driver.run.messages));
  }

  // What the model said is accounted for before it is acted on.
  function Heeded(c: Cell, reply: ModelReply): Cell {
    if reply.Replied? then c.Logged(Heard(reply.completion)) else c
  }

  lemma HeedingIsOk(cfg: Config, c: Cell, d: Driver, reply: ModelReply, next: Run)
    requires cfg.Valid() && CellOk(cfg, c) && DriverOk(c, d)
    requires next.steps == d.run.steps
    requires next.usage == if reply.Replied? then d.run.usage.Plus(reply.completion.usage) else d.run.usage
    ensures CellOk(cfg, Heeded(c, reply)) && DriverOk(Heeded(c, reply), d.(run := next))
    ensures CallsInRun(Heeded(c, reply).log) == CallsInRun(c.log)
    ensures StepsAtEntry(Heeded(c, reply).log) == StepsAtEntry(c.log)
  {
    hide CheckpointOk, CommitsOk, ApprovalsOk, BatchesOk, RequestsOk, BudgetOk, PolicyOk;
    if reply.Replied? {
      LoggingInTheLog(cfg.maxSteps, c.log, Heard(reply.completion));
      LoggingKeepsBatches(cfg, c.log, Heard(reply.completion));
      LoggingKeepsTheCell(cfg, c, Heard(reply.completion));
    }
  }

  lemma ReplyIsOk(cfg: Config, c: Cell, p: Process, reply: ModelReply)
    requires cfg.Valid() && CellOk(cfg, c) && p.InModel? && ProcessOk(cfg, c, p) && reply.Valid()
    ensures CellOk(cfg, Advance(cfg, c, p, Reply(reply)).0)
    ensures ProcessOk(cfg, Advance(cfg, c, p, Reply(reply)).0, Advance(cfg, c, p, Reply(reply)).1)
  {
    hide CellOk, DriverOk, AfterReply, OnToolTurn, Resumable, Conversation;
    ReplyKeepsTheRunInShape(cfg, p.driver.run, reply);
    HeedingIsOk(cfg, c, p.driver, reply, AfterReply(cfg, p.driver.run, reply).0);
    assert Advance(cfg, c, p, Reply(reply)).0 == Heeded(c, reply);
  }

  lemma ResultsAreOk(cfg: Config, c: Cell, p: Process, results: seq<ToolResult>)
    requires cfg.Valid() && CellOk(cfg, c) && p.InTools? && ProcessOk(cfg, c, p) && Answers(p.calls, results)
    ensures CellOk(cfg, Advance(cfg, c, p, Results(results)).0)
    ensures ProcessOk(cfg, Advance(cfg, c, p, Results(results)).0, Advance(cfg, c, p, Results(results)).1)
  {
    hide CheckpointOk, CommitsOk, ApprovalsOk, BatchesOk, RequestsOk, BudgetOk, PolicyOk;
    hide OnToolTurn, AtLoopHead;
    LoggingInTheLog(cfg.maxSteps, c.log, Told(results));
    LoggingKeepsBatches(cfg, c.log, Told(results));
    LoggingKeepsTheCell(cfg, c, Told(results));
    assert p.driver.run.messages != [] by {
      ToolTurnsHaveMessages(cfg, p.driver.run);
    }
    ResultsKeepTheRunInShape(cfg, p.driver.run, results);
  }

  lemma ToolTurnsHaveMessages(cfg: Config, run: Run)
    requires OnToolTurn(cfg, run)
    ensures run.messages != []
  {}

  lemma BatchIsOk(cfg: Config, c: Cell, p: Process, now: int)
    requires cfg.Valid() && CellOk(cfg, c) && p.BeforeTools? && ProcessOk(cfg, c, p)
    ensures CellOk(cfg, Advance(cfg, c, p, Go(now)).0)
    ensures ProcessOk(cfg, Advance(cfg, c, p, Go(now)).0, Advance(cfg, c, p, Go(now)).1)
  {
    hide CheckpointOk, CommitsOk, ApprovalsOk, BatchesOk, RequestsOk, BudgetOk, PolicyOk;
    hide OnToolTurn, IsApproval;
    LoggingInTheLog(cfg.maxSteps, c.log, Ran(p.calls, p.approval));
    BatchKeepsBatches(cfg, c.log, Ran(p.calls, p.approval));
    LoggingKeepsTheCell(cfg, c, Ran(p.calls, p.approval));
  }

  lemma AdvanceIsOk(cfg: Config, c: Cell, p: Process, input: Input)
    requires cfg.Valid() && CellOk(cfg, c) && ProcessOk(cfg, c, p) && InputFits(p, input)
    ensures CellOk(cfg, Advance(cfg, c, p, input).0)
    ensures ProcessOk(cfg, Advance(cfg, c, p, input).0, Advance(cfg, c, p, input).1)
  {
    hide CellOk, IntentOk, WriteOk, DriverOk, AtLoopHead, AskingTheModel, OnToolTurn, AfterReply, Load, Won;
    match input
    case Crash =>
    case Reply(reply) => ReplyIsOk(cfg, c, p, reply);
    case Results(results) => ResultsAreOk(cfg, c, p, results);
    case Go(now) =>
      match p
      case Loading(intent) => LoadingIsOk(cfg, c, intent, now);
      case Writing(_, _, _) => WritingIsOk(cfg, c, p, now);
      case Asking(_) => AskingIsOk(cfg, c, p, now);
      case BeforeTools(_, _, _) => BatchIsOk(cfg, c, p, now);
      case _ => ReadingIsOk(cfg, c, p, now);
  }

  // --- Everybody else, while one process steps ------------------------------------------------

  // What a step does to the task: nothing, or one winning write of a fresh snapshot.
  lemma StepOnTheTask(cfg: Config, c: Cell, p: Process, input: Input)
    requires cfg.Valid() && CellOk(cfg, c) && ProcessOk(cfg, c, p) && InputFits(p, input)
    ensures var (cell, next) := Advance(cfg, c, p, input);
            && cell.task.SameIdentity(c.task)
            && (next.Live() && !p.Live() ==> c.task.status == Pending || c.task.status == AwaitingApproval)
            && (cell == c
                || (p.Live() && cell.task == c.task && exists e :: cell.log == c.log + [e] && !e.Committed?)
                || (p.Writing? && p.current == c.task && cell.task == p.updated
                    && p.intent.Target() in Allowed(c.task.status)
                    && cell.task.status == p.intent.Target() && cell.task.version == c.task.version + 1
                    && cell.log == c.log + [Committed(p.intent, c.task, p.updated)]))
  {
    hide CheckpointOk, CommitsOk, ApprovalsOk, BatchesOk, RequestsOk, BudgetOk, PolicyOk;
    hide AfterReply, OnToolTurn, Resumable, Conversation, AtLoopHead, AskingTheModel, LifecyclePath, IsApproval;
    if !input.Crash? && p.Writing? && c.task.version == p.current.version {
      WinningWriteIsFresh(c, p.intent, p.current, p.updated);
    } else if !input.Crash? && p.InModel? && input.reply.Replied? {
      assert c.Logged(Heard(input.reply.completion)).log == c.log + [Heard(input.reply.completion)];
    } else if !input.Crash? && p.InTools? {
      assert c.Logged(Told(input.results)).log == c.log + [Told(input.results)];
    }
  }

  // Only a winning write changes the task, and it changes it to what was written.
  lemma OnlyWritesChangeTheTask(cfg: Config, c: Cell, p: Process, input: Input)
    requires CellOk(cfg, c) && ProcessOk(cfg, c, p) && InputFits(p, input)
    ensures var cell := Advance(cfg, c, p, input).0;
            if !input.Crash? && p.Writing? && c.task.version == p.current.version then
              && p.current == c.task && cell == Landed(c, p.intent, p.updated) && p.updated.SameIdentity(c.task)
              && c.task.TransitionTo(p.intent.Target(), p.intent.Text(), p.intent.NewCheckpoint(), p.updated.updatedAt)
                 == Success(p.updated)
              && (p.intent.ExpectedVersion().Some? ==> c.task.version == p.intent.ExpectedVersion().value)
            else
              cell.task == c.task
  {
    hide CheckpointOk, CommitsOk, ApprovalsOk, BatchesOk, RequestsOk, BudgetOk, PolicyOk;
    if p.Writing? && c.task.version == p.current.version {
      WinningWriteIsFresh(c, p.intent, p.current, p.updated);
    }
  }

  // Cancelling a task moves no counter and leaves its driver driving.
  lemma CancellationMovesNoCounter(cfg: Config, c: Cell, updated: AgentTask, intent: Intent, d: Driver)
    requires Drives(c.task, d) && intent.Target() in Allowed(c.task.status) && !intent.Finish?
    requires updated.status == intent.Target() && updated.version == c.task.version + 1
    ensures Drives(updated, d)
    ensures var log := Landed(c, intent, updated).log;
            && Starts(log) == Starts(c.log)
            && CallsInRun(log) == CallsInRun(c.log)
            && UsageInRun(log) == UsageInRun(c.log)
            && StepsAtEntry(log) == StepsAtEntry(c.log)
  {
    CommitInTheLog(cfg.maxSteps, c.log, Committed(intent, c.task, updated));
    assert intent.Target() == Cancelled;
  }

  // A cancellation or rejection by one process leaves a live driver's account intact.
  lemma CancellationLeavesTheDriver(cfg: Config, c: Cell, updated: AgentTask, intent: Intent, q: Process)
    requires ProcessOk(cfg, c, q) && q.Live()
    requires intent.Target() in Allowed(c.task.status) && !intent.Finish?
    requires updated.SameIdentity(c.task) && updated.status == intent.Target() && updated.version == c.task.version + 1
    ensures ProcessOk(cfg, Landed(c, intent, updated), q)
  {
    hide Resumable, OnToolTurn, AtLoopHead, AskingTheModel, IsApproval;
    hide Starts, CallsInRun, UsageInRun, StepsAtEntry, Drives, AgentTask.TransitionTo;
    assert Drives(c.task, q.TheDriver());
    CancellationMovesNoCounter(cfg, c, updated, intent, q.TheDriver());
    match q
    case BeforeTools(_, _, _) =>
    case Loading(_) =>
    case Writing(_, _, _) =>
    case _ =>
  }

  lemma OthersAreUndisturbed(cfg: Config, c: Cell, p: Process, input: Input, q: Process)
    requires cfg.Valid() && CellOk(cfg, c) && ProcessOk(cfg, c, p) && InputFits(p, input)
    requires ProcessOk(cfg, c, q) && !(p.Live() && q.Live())
    ensures var (cell, next) := Advance(cfg, c, p, input);
            ProcessOk(cfg, cell, q) && !(next.Live() && q.Live())
  {
    hide CellOk, Resumable, OnToolTurn, AtLoopHead, AskingTheModel, IsApproval, Advance;
    var (cell, next) := Advance(cfg, c, p, input);
    StepOnTheTask(cfg, c, p, input);
    if q.Live() {
      assert Drives(c.task, q.TheDriver());
      if cell != c {
        CancellationLeavesTheDriver(cfg, c, p.updated, p.intent, q);
      }
    }
  }

  // --- The system -------------------------------------------------------------------------------

  lemma InvInitially(cfg: Config)
    requires cfg.Valid()
    ensures Inv(cfg, EMPTY)
  {}

  lemma NewTasksAreOk(cfg: Config, id: TaskId, goal: string, requestedBy: string, now: int)
    ensures CellOk(cfg, Cell(AgentTask.Create(id, goal, requestedBy, now), []))
  {}

  lemma CreateKeepsInv(cfg: Config, s: State, m: Move)
    requires Inv(cfg, s) && m.CreateTask? && Enabled(s, m)
    ensures Inv(cfg, Perform(cfg, s, m))
  {
    hide CellOk;
    NewTasksAreOk(cfg, m.id, m.goal, m.requestedBy, m.now);
    var t := Perform(cfg, s, m);
    forall pid | pid in t.actors
      ensures ActorOk(cfg, t, t.actors[pid])
    {
      assert ActorOk(cfg, s, s.actors[pid]);
    }
  }

  lemma SpawnKeepsInv(cfg: Config, s: State, m: Move)
    requires Inv(cfg, s) && m.Spawn? && Enabled(s, m)
    ensures Inv(cfg, Perform(cfg, s, m))
  {
    hide CellOk;
    var t := Perform(cfg, s, m);
    forall pid | pid in t.actors
      ensures ActorOk(cfg, t, t.actors[pid])
    {
      assert pid in s.actors ==> ActorOk(cfg, s, s.actors[pid]);
    }
  }

  lemma ActorAndCell(cfg: Config, s: State, pid: nat)
    requires Inv(cfg, s) && pid in s.actors && s.actors[pid].id in s.cells
    ensures s.cells[s.actors[pid].id].task.id == s.actors[pid].id
    ensures CellOk(cfg, s.cells[s.actors[pid].id])
    ensures ProcessOk(cfg, s.cells[s.actors[pid].id], s.actors[pid].process)
  {
    assert ActorOk(cfg, s, s.actors[pid]);
  }

  // The actors on the task that moved.
  lemma ActorsStayOk(cfg: Config, s: State, pid: nat, input: Input, other: nat)
    requires Inv(cfg, s) && pid in s.actors && InputFits(s.actors[pid].process, input)
    requires s.actors[pid].id in s.cells
    requires other in s.actors && other != pid && s.actors[other].id == s.actors[pid].id
    ensures var (cell, next) := Advance(cfg, s.cells[s.actors[pid].id], s.actors[pid].process, input);
            ProcessOk(cfg, cell, s.actors[other].process) && !(next.Live() && s.actors[other].process.Live())
  {
    assert ActorOk(cfg, s, s.actors[pid]) && ActorOk(cfg, s, s.actors[other]);
    OthersAreUndisturbed(cfg, s.cells[s.actors[pid].id], s.actors[pid].process, input, s.actors[other].process);
  }

  lemma StepKeepsTheIdentity(cfg: Config, c: Cell, p: Process, input: Input)
    requires cfg.Valid() && CellOk(cfg, c) && ProcessOk(cfg, c, p) && InputFits(p, input)
    ensures Advance(cfg, c, p, input).0.task.SameIdentity(c.task)
  {
    StepOnTheTask(cfg, c, p, input);
  }

  lemma ActKeepsTheCells(cfg: Config, s: State, m: Move)
    requires Inv(cfg, s) && m.Act? && Enabled(s, m) && s.actors[m.pid].id in s.cells
    ensures var t := Perform(cfg, s, m);
            && (forall id | id in t.cells :: t.cells[id].task.id == id && CellOk(cfg, t.cells[id]))
            && ProcessOk(cfg, t.cells[s.actors[m.pid].id], t.actors[m.pid].process)
  {
    hide CellOk, ProcessOk;
    var t := Perform(cfg, s, m);
    var Actor(id, p) := s.actors[m.pid];
    var c := s.cells[id];
    assert CellOk(cfg, c) && ProcessOk(cfg, c, p) by {
      assert ActorOk(cfg, s, s.actors[m.pid]);
    }
    AdvanceIsOk(cfg, c, p, m.input);
    StepKeepsTheIdentity(cfg, c, p, m.input);
    var (cell, next) := Advance(cfg, c, p, m.input);
    assert t.cells == s.cells[id := cell] && t.actors[m.pid] == Actor(id, next);
  }

  lemma ActKeepsTheActors(cfg: Config, s: State, m: Move, pid: nat)
    requires Inv(cfg, s) && m.Act? && Enabled(s, m) && s.actors[m.pid].id in s.cells
    requires pid in s.actors && pid != m.pid
    ensures var t := Perform(cfg, s, m);
            && t.actors[pid] == s.actors[pid]
            && ActorOk(cfg, t, t.actors[pid])
            && (t.actors[pid].id == t.actors[m.pid].id ==>
                  !(t.actors[m.pid].process.Live() && t.actors[pid].process.Live()))
  {
    hide CellOk, ProcessOk;
    assert ActorOk(cfg, s, s.actors[pid]);
    if s.actors[pid].id == s.actors[m.pid].id {
      ActorsStayOk(cfg, s, m.pid, m.input, pid);
    }
  }

  lemma ActKeepsInv(cfg: Config, s: State, m: Move)
    requires Inv(cfg, s) && m.Act? && Enabled(s, m) && s.actors[m.pid].id in s.cells
    ensures Inv(cfg, Perform(cfg, s, m))
  {
    hide CellOk, ProcessOk;
    var t := Perform(cfg, s, m);
    ActKeepsTheCells(cfg, s, m);
    forall pid | pid in s.actors && pid != m.pid
      ensures t.actors[pid] == s.actors[pid] && ActorOk(cfg, t, t.actors[pid])
      ensures t.actors[pid].id == t.actors[m.pid].id ==>
                !(t.actors[m.pid].process.Live() && t.actors[pid].process.Live())
    {
      ActKeepsTheActors(cfg, s, m, pid);
    }
  }

  lemma MissingTaskKeepsInv(cfg: Config, s: State, m: Move)
    requires Inv(cfg, s) && m.Act? && Enabled(s, m) && s.actors[m.pid].id !in s.cells
    ensures Inv(cfg, Perform(cfg, s, m))
  {
    hide CellOk, ProcessOk;
    var t := Perform(cfg, s, m);
    assert ActorOk(cfg, s, s.actors[m.pid]);
    forall pid | pid in t.actors
      ensures ActorOk(cfg, t, t.actors[pid])
    {
      assert ActorOk(cfg, s, s.actors[pid]);
    }
  }

  // Every move of the system keeps the invariant.
  lemma InvIsInductive(cfg: Config, s: State, m: Move)
    requires Inv(cfg, s) && Enabled(s, m)
    ensures Inv(cfg, Perform(cfg, s, m))
  {
    match m
    case CreateTask(_, _, _, _) => CreateKeepsInv(cfg, s, m);
    case Spawn(_, _, _) => SpawnKeepsInv(cfg, s, m);
    case Act(pid, _) =>
      if s.actors[pid].id in s.cells {
        ActKeepsInv(cfg, s, m);
      } else {
        MissingTaskKeepsInv(cfg, s, m);
      }
  }

  lemma {:induction false} InvAlways(cfg: Config, s: State, moves: seq<Move>)
    requires Inv(cfg, s) && Legal(cfg, s, moves)
    ensures Inv(cfg, After(cfg, s, moves))
    decreases |moves|
  {
    if moves != [] {
      InvIsInductive(cfg, s, moves[0]);
      InvAlways(cfg, Perform(cfg, s, moves[0]), moves[1..]);
    }
  }
}
