/** Every actor on the shared tasks, as a step relation: any number of starters,
    drivers, approvers, rejecters and cancellers, in any interleaving.

    Each repository `get`, each `update`, each model call and each tool batch is
    one atomic step of one process, because those are the `await` points of the
    source. A process works on one task, so a step is a function of that task's
    cell (the stored task and a log of what was done to it) and the process. */
module Protocol {
  import opened Wrappers
  import opened Messages
  import opened Tasks
  import opened Listing
  import opened RunLogic

  // A run in progress, and the version of the task its winning commit wrote.
  datatype Driver = Driver(run: Run, version: nat)

  datatype Request =
    | ApproveRequest(approver: string, note: Option<string>)
    | RejectRequest(rejecter: string, why: Option<string>)

  // The arguments of one call of `transition_task`, by who makes it.
  datatype Intent =
    | Start
    | Approve(paused: AgentTask, released: RunCheckpoint, approver: string, note: Option<string>)
    | Reject(paused: AgentTask, rejecter: string, why: Option<string>)
    | Cancel(canceller: string, why: Option<string>)
    | Finish(driver: Driver, status: TaskStatus, reason: Reason, output: string, checkpoint: Option<RunCheckpoint>)
  {
    function Target(): TaskStatus {
      match this
      case Start => Running
      case Approve(_, _, _, _) => Running
      case Reject(_, _, _) => Cancelled
      case Cancel(_, _) => Cancelled
      case Finish(_, status, _, _, _) => status
    }

    function Text(): Reason {
      match this
      case Start => RunStarted
      case Approve(_, _, approver, note) => ApprovedBy(approver, note)
      case Reject(_, rejecter, why) => RejectedBy(rejecter, why)
      case Cancel(canceller, why) => CancelledBy(canceller, why)
      case Finish(_, _, reason, _, _) => reason
    }

    function NewCheckpoint(): Option<RunCheckpoint> {
      if Finish? then checkpoint else None
    }

    // Only `resume` and `reject` tie the write to an earlier read.
    function ExpectedVersion(): Option<nat> {
      match this
      case Approve(paused, _, _, _) => Some(paused.version)
      case Reject(paused, _, _) => Some(paused.version)
      case _ => None
    }
  }

  datatype Process =
    | CheckingPolicy(approver: string, note: Option<string>)       // approve_task, before its own read
    | FindingPaused(request: Request)                              // before the read in _require_paused
    | Loading(intent: Intent)                                      // transition_task, before its read
    | Writing(intent: Intent, current: AgentTask, updated: AgentTask)  // between its read and its write
    | LoopHead(driver: Driver)
    | Asking(driver: Driver)                                       // a step is spent, the call not yet started
    | InModel(driver: Driver)
    | BeforeTools(driver: Driver, calls: seq<ToolCall>, approval: Option<nat>)
    | InTools(driver: Driver, calls: seq<ToolCall>)
    | Reporting(driver: Driver, ending: Ending)                    // _discard, before its read
    | Returned(result: RunResult, ending: Ending)
    | Decided(task: AgentTask)                                     // reject or cancel returned
    | Raised(error: Error)
    | Crashed
  {
    // Between the commit to `running` and the return of the run.
    predicate Live() {
      || LoopHead? || Asking? || InModel? || BeforeTools? || InTools? || Reporting?
      || ((Loading? || Writing?) && intent.Finish?)
    }

    function TheDriver(): Driver
      requires Live()
    {
      if Loading? || Writing? then intent.driver else driver
    }

    // What a request handler starts with.
    predicate Initial() {
      || CheckingPolicy?
      || (FindingPaused? && request.RejectRequest?)
      || (Loading? && (intent.Start? || intent.Cancel?))
    }
  }

  // What has been done to one task, in order. `approval` is the position in the
  // log of the approval that released a batch, if it was a held one.
  datatype Event =
    | Committed(intent: Intent, before: AgentTask, after: AgentTask)
    | Asked(messages: seq<Message>)
    | Heard(completion: Completion)
    | Ran(calls: seq<ToolCall>, approval: Option<nat>)
    | Told(results: seq<ToolResult>)

  datatype Cell = Cell(task: AgentTask, log: seq<Event>) {
    function Logged(e: Event): Cell {
      this.(log := log + [e])
    }
  }

  // What the outside world decides at a step.
  datatype Input = Go(now: int) | Reply(reply: ModelReply) | Results(results: seq<ToolResult>) | Crash

  predicate InputFits(p: Process, input: Input) {
    match input
    case Go(_) => !p.InModel? && !p.InTools?
    case Reply(reply) => p.InModel? && reply.Valid()
    case Results(results) => p.InTools? && Answers(p.calls, results)
    case Crash => true
  }

  // A transition that did not happen: `_finish` turns it into a discarded run,
  // everyone else lets the error out.
  function Lost(intent: Intent, error: Error): Process {
    if intent.Finish? && (error.InvalidTransition? || error.ConcurrentUpdate?) then
      Reporting(intent.driver, Discarded)
    else
      Raised(error)
  }

  function Load(intent: Intent, current: AgentTask, now: int): Process {
    if intent.ExpectedVersion().Some? && current.version != intent.ExpectedVersion().value then
      Lost(intent, ConcurrentUpdate(current.id, intent.ExpectedVersion().value, current.version))
    else
      match current.TransitionTo(intent.Target(), intent.Text(), intent.NewCheckpoint(), now)
      case Failure(error) => Lost(intent, error)
      case Success(updated) => Writing(intent, current, updated)
  }

  // What the winner of a transition goes on to do; `position` is where its commit
  // stands in the task's log.
  function Won(intent: Intent, updated: AgentTask, position: nat): Process {
    match intent
    case Start => LoopHead(Driver(FreshRun(updated.goal), updated.version))
    case Approve(_, released, _, _) =>
      BeforeTools(Driver(Resuming(released), updated.version), released.PendingCalls(), Some(position))
    case Reject(_, _, _) => Decided(updated)
    case Cancel(_, _) => Decided(updated)
    case Finish(d, _, reason, output, checkpoint) =>
      Returned(Settling(updated, d.run, reason, output, checkpoint), Settled)
  }

  function Advance(cfg: Config, c: Cell, p: Process, input: Input): (Cell, Process)
    requires InputFits(p, input)
  {
    if input.Crash? then (c, Crashed) else
    match p
    case CheckingPolicy(approver, note) =>
      if cfg.requiresSecondPerson && approver == c.task.requestedBy then
        (c, Raised(Forbidden(c.task.id)))
      else
        (c, FindingPaused(ApproveRequest(approver, note)))
    case FindingPaused(request) =>
      if c.task.status != AwaitingApproval then
        (c, Raised(InvalidTransition(c.task.status, Running)))
      else (
        match request
        case ApproveRequest(approver, note) =>
          if c.task.checkpoint.None? then (c, Raised(NotResumable(c.task.id)))
          else (c, Loading(Approve(c.task, c.task.checkpoint.value, approver, note)))
        case RejectRequest(rejecter, why) => (c, Loading(Reject(c.task, rejecter, why)))
      )
    case Loading(intent) => (c, Load(intent, c.task, input.now))
    case Writing(intent, current, updated) =>
      if c.task.version != current.version then
        (c, Lost(intent, ConcurrentUpdate(c.task.id, current.version, c.task.version)))
      else
        (Cell(updated, c.log + [Committed(intent, c.task, updated)]), Won(intent, updated, |c.log|))
    case LoopHead(d) =>
      if d.run.steps >= cfg.maxSteps then
        (c, Loading(Finish(d, Failed, BudgetExhausted(cfg.maxSteps), "", None)))
      else if d.run.steps > 0 && c.task.status != Running then
        (c, Reporting(d, Abandoned))
      else
        (c, Asking(d.(run := d.run.(steps := d.run.steps + 1))))
    case Asking(d) => (c.Logged(Asked(d.run.messages)), InModel(d))
    case InModel(d) =>
      var (next, decision) := AfterReply(cfg, d.run, input.reply);
      var heard := if input.reply.Replied? then c.Logged(Heard(input.reply.completion)) else c;
      (match decision
       case Settle(status, reason, output, checkpoint) =>
         (heard, Loading(Finish(d.(run := next), status, reason, output, checkpoint)))
       case Execute(calls) => (heard, BeforeTools(d.(run := next), calls, None)))
    case BeforeTools(d, calls, approval) => (c.Logged(Ran(calls, approval)), InTools(d, calls))
    case InTools(d, calls) =>
      (c.Logged(Told(input.results)), LoopHead(d.(run := AfterResults(d.run, input.results))))
    case Reporting(d, ending) =>
      (c, Returned(RunResult(c.task, "", RunStopped(c.task.status), d.run.steps, d.run.toolCalls, d.run.usage, []),
                   ending))
    case _ => (c, p)
  }

  // --- The whole system ------------------------------------------------------------

  datatype Actor = Actor(id: TaskId, process: Process)

  datatype State = State(cells: map<TaskId, Cell>, actors: map<nat, Actor>) {
    // The store as the repository holds it.
    function Store(): Store {
      map id | id in cells :: cells[id].task
    }
  }

  const EMPTY := State(map[], map[])

  datatype Move =
    | CreateTask(id: TaskId, goal: string, requestedBy: string, now: int)
    | Spawn(pid: nat, id: TaskId, process: Process)
    | Act(pid: nat, input: Input)

  predicate Enabled(s: State, m: Move) {
    match m
    case CreateTask(id, _, _, _) => id !in s.cells
    case Spawn(pid, _, process) => pid !in s.actors && process.Initial()
    case Act(pid, input) => pid in s.actors && InputFits(s.actors[pid].process, input)
  }

  function Perform(cfg: Config, s: State, m: Move): State
    requires Enabled(s, m)
  {
    match m
    case CreateTask(id, goal, requestedBy, now) =>
      s.(cells := s.cells[id := Cell(AgentTask.Create(id, goal, requestedBy, now), [])])
    case Spawn(pid, id, process) => s.(actors := s.actors[pid := Actor(id, process)])
    case Act(pid, input) =>
      var Actor(id, process) := s.actors[pid];
      if id in s.cells then
        var (cell, next) := Advance(cfg, s.cells[id], process, input);
        State(s.cells[id := cell], s.actors[pid := Actor(id, next)])
      else if process.Raised? || process.Crashed? then
        s
      else
        s.(actors := s.actors[pid := Actor(id, if input.Crash? then Crashed else Raised(TaskNotFound(id)))])
  }

  // A run of the system is a sequence of moves, each enabled where it happens.
  predicate Legal(cfg: Config, s: State, moves: seq<Move>)
    decreases |moves|
  {
    moves == [] || (Enabled(s, moves[0]) && Legal(cfg, Perform(cfg, s, moves[0]), moves[1..]))
  }

  function After(cfg: Config, s: State, moves: seq<Move>): State
    requires Legal(cfg, s, moves)
    decreases |moves|
  {
    if moves == [] then s else After(cfg, Perform(cfg, s, moves[0]), moves[1..])
  }

  // --- What a log says about the task's life ------------------------------------------

  function Starts(log: seq<Event>): nat {
    if log == [] then 0 else
    var e := log[|log| - 1];
    Starts(log[..|log| - 1]) + if e.Committed? && e.intent.Start? then 1 else 0
  }

  // Model calls over the task's whole life.
  function ModelCalls(log: seq<Event>): nat {
    if log == [] then 0 else
    ModelCalls(log[..|log| - 1]) + if log[|log| - 1].Asked? then 1 else 0
  }

  function ToolBatches(log: seq<Event>): nat {
    if log == [] then 0 else
    ToolBatches(log[..|log| - 1]) + if log[|log| - 1].Ran? then 1 else 0
  }

  function Commits(log: seq<Event>): nat {
    if log == [] then 0 else
    Commits(log[..|log| - 1]) + if log[|log| - 1].Committed? then 1 else 0
  }

  // Model calls since the last time somebody started a run on the task.
  function CallsInRun(log: seq<Event>): nat {
    if log == [] then 0 else
    var e := log[|log| - 1];
    if e.Committed? && e.intent.Start? then 0
    else CallsInRun(log[..|log| - 1]) + if e.Asked? then 1 else 0
  }

  // What the model reported having used since then.
  function UsageInRun(log: seq<Event>): TokenUsage {
    if log == [] then NO_USAGE else
    var e := log[|log| - 1];
    if e.Committed? && e.intent.Start? then NO_USAGE
    else if e.Heard? then UsageInRun(log[..|log| - 1]).Plus(e.completion.usage)
    else UsageInRun(log[..|log| - 1])
  }

  // The steps already spent when the task last became `running`.
  function StepsAtEntry(log: seq<Event>): nat {
    if log == [] then 0 else
    var e := log[|log| - 1];
    if e.Committed? && e.intent.Start? then 0
    else if e.Committed? && e.intent.Approve? then e.intent.released.steps
    else StepsAtEntry(log[..|log| - 1])
  }

  // One step budget for every start.
  function Allowance(maxSteps: nat, log: seq<Event>): nat {
    if log == [] then 0 else
    var e := log[|log| - 1];
    Allowance(maxSteps, log[..|log| - 1]) + if e.Committed? && e.intent.Start? then maxSteps else 0
  }
}
