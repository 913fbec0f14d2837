/** What the model is asked, turn by turn and word for word: the goal, what it said
    itself, and what the tools answered, as the log has them. */
module Conversations {
  import opened Wrappers
  import opened Messages
  import opened Tasks
  import opened RunLogic
  import opened Protocol
  import opened ProtocolInvariant
  import opened ProtocolTheorems
  import opened Accounts

  // What the model has said, and been told, since the last time somebody started a
  // run on the task.
  function SaidInRun(log: seq<Event>): seq<Completion> {
    if log == [] then [] else
    var e := log[|log| - 1];
    if e.Committed? && e.intent.Start? then []
    else if e.Heard? then SaidInRun(log[..|log| - 1]) + [e.completion]
    else SaidInRun(log[..|log| - 1])
  }

  function ToldInRun(log: seq<Event>): seq<seq<ToolResult>> {
    if log == [] then [] else
    var e := log[|log| - 1];
    if e.Committed? && e.intent.Start? then []
    else if e.Told? then ToldInRun(log[..|log| - 1]) + [e.results]
    else ToldInRun(log[..|log| - 1])
  }

  lemma TurnsInTheLog(log: seq<Event>, e: Event)
    ensures SaidInRun(log + [e])
            == if e.Committed? && e.intent.Start? then []
               else if e.Heard? then SaidInRun(log) + [e.completion] else SaidInRun(log)
    ensures ToldInRun(log + [e])
            == if e.Committed? && e.intent.Start? then []
               else if e.Told? then ToldInRun(log) + [e.results] else ToldInRun(log)
  {
    assert (log + [e])[..|log|] == log;
  }

  // The conversation, read off the goal, the replies and the answers.
  predicate Transcribes(messages: seq<Message>, goal: string, said: seq<Completion>, told: seq<seq<ToolResult>>) {
    && |told| <= |said| <= |told| + 1
    && |messages| == 1 + |said| + |told|
    && messages[0] == Message(User, "Task goal:\n" + goal, [], [])
    && (forall k | 0 <= k < |said| :: messages[2 * k + 1] == Message(Assistant, said[k].text, said[k].toolCalls, []))
    && (forall k | 0 <= k < |told| :: messages[2 * k + 2] == Message(User, "", [], told[k]))
  }

  // The log's transcript, with this many replies still to be answered.
  predicate Follows(c: Cell, messages: seq<Message>, unanswered: nat) {
    && Transcribes(messages, c.task.goal, SaidInRun(c.log), ToldInRun(c.log))
    && |SaidInRun(c.log)| == |ToldInRun(c.log)| + unanswered
  }

  lemma FreshTranscript(goal: string)
    ensures Transcribes(FreshRun(goal).messages, goal, [], [])
  {}

  lemma OneMoreReply(run: Run, completion: Completion, goal: string, said: seq<Completion>, told: seq<seq<ToolResult>>)
    requires Transcribes(run.messages, goal, said, told) && |said| == |told|
    ensures Transcribes(run.messages + [Message.FromCompletion(completion)], goal, said + [completion], told)
  {
    var messages := run.messages + [Message.FromCompletion(completion)];
    forall k | 0 <= k < |said|
      ensures messages[2 * k + 1] == Message(Assistant, said[k].text, said[k].toolCalls, [])
    {
      assert messages[2 * k + 1] == run.messages[2 * k + 1];
    }
    forall k | 0 <= k < |told|
      ensures messages[2 * k + 2] == Message(User, "", [], told[k])
    {
      assert messages[2 * k + 2] == run.messages[2 * k + 2];
    }
  }

  lemma OneMoreAnswer(
      run: Run, results: seq<ToolResult>, goal: string, said: seq<Completion>, told: seq<seq<ToolResult>>)
    requires Transcribes(run.messages, goal, said, told) && |said| == |told| + 1
    ensures Transcribes(AfterResults(run, results).messages, goal, said, told + [results])
  {
    var messages := AfterResults(run, results).messages;
    forall k | 0 <= k < |said|
      ensures messages[2 * k + 1] == Message(Assistant, said[k].text, said[k].toolCalls, [])
    {
      assert messages[2 * k + 1] == run.messages[2 * k + 1];
    }
    forall k | 0 <= k < |told|
      ensures messages[2 * k + 2] == Message(User, "", [], told[k])
    {
      assert messages[2 * k + 2] == run.messages[2 * k + 2];
    }
  }

  // --- The invariant -----------------------------------------------------------------------------

  predicate IntentFollows(c: Cell, intent: Intent) {
    intent.Finish? && intent.checkpoint.Some? ==> Follows(c, intent.checkpoint.value.messages, 1)
  }

  predicate ProcessFollows(c: Cell, p: Process) {
    match p
    case LoopHead(d) => Follows(c, d.run.messages, 0)
    case Asking(d) => Follows(c, d.run.messages, 0)
    case InModel(d) => Follows(c, d.run.messages, 0)
    case BeforeTools(d, _, _) => Follows(c, d.run.messages, 1)
    case InTools(d, _) => Follows(c, d.run.messages, 1)
    case Loading(intent) => IntentFollows(c, intent)
    case Writing(intent, _, _) => IntentFollows(c, intent)
    case _ => true
  }

  predicate TaskFollows(c: Cell) {
    c.task.checkpoint.Some? ==> Follows(c, c.task.checkpoint.value.messages, 1)
  }

  // Every request sent was the transcript at that moment.
  ghost predicate RequestsFollow(goal: string, log: seq<Event>) {
    forall i | 0 <= i < |log| && log[i].Asked? ::
      && Transcribes(log[i].messages, goal, SaidInRun(log[..i]), ToldInRun(log[..i]))
      && |SaidInRun(log[..i])| == |ToldInRun(log[..i])|
  }

  ghost predicate CellFollows(c: Cell) {
    TaskFollows(c) && RequestsFollow(c.task.goal, c.log)
  }

  lemma RequestsFollowOn(goal: string, log: seq<Event>, e: Event)
    requires RequestsFollow(goal, log)
    requires e.Asked? ==>
               && Transcribes(e.messages, goal, SaidInRun(log), ToldInRun(log))
               && |SaidInRun(log)| == |ToldInRun(log)|
    ensures RequestsFollow(goal, log + [e])
  {
    hide Transcribes, SaidInRun, ToldInRun;
    var all := log + [e];
    forall i | 0 <= i < |all| && all[i].Asked?
      ensures Transcribes(all[i].messages, goal, SaidInRun(all[..i]), ToldInRun(all[..i]))
      ensures |SaidInRun(all[..i])| == |ToldInRun(all[..i])|
    {
      assert all[..i] == log[..i];
      assert log[..|log|] == log;
    }
  }

  // --- One step --------------------------------------------------------------------------------------

  lemma AskingFollows(cfg: Config, c: Cell, d: Driver, now: int)
    requires CellFollows(c) && c.task.checkpoint.None? && ProcessFollows(c, Asking(d))
    ensures var (cell, next) := Advance(cfg, c, Asking(d), Go(now)); CellFollows(cell) && ProcessFollows(cell, next)
  {
    hide Transcribes, SaidInRun, ToldInRun, RequestsFollow;
    TurnsInTheLog(c.log, Asked(d.run.messages));
    RequestsFollowOn(c.task.goal, c.log, Asked(d.run.messages));
  }

  lemma ReplyFollows(cfg: Config, c: Cell, d: Driver, reply: ModelReply)
    requires CellFollows(c) && c.task.checkpoint.None? && ProcessFollows(c, InModel(d)) && reply.Valid()
    ensures var (cell, next) := Advance(cfg, c, InModel(d), Reply(reply));
            CellFollows(cell) && ProcessFollows(cell, next)
  {
    hide Transcribes, SaidInRun, ToldInRun, RequestsFollow;
    if reply.Replied? {
      TurnsInTheLog(c.log, Heard(reply.completion));
      RequestsFollowOn(c.task.goal, c.log, Heard(reply.completion));
      OneMoreReply(d.run, reply.completion, c.task.goal, SaidInRun(c.log), ToldInRun(c.log));
    }
  }

  lemma RunningFollows(cfg: Config, c: Cell, p: Process, now: int)
    requires CellFollows(c) && c.task.checkpoint.None? && p.BeforeTools? && ProcessFollows(c, p)
    ensures var (cell, next) := Advance(cfg, c, p, Go(now)); CellFollows(cell) && ProcessFollows(cell, next)
  {
    hide Transcribes, SaidInRun, ToldInRun, RequestsFollow;
    TurnsInTheLog(c.log, Ran(p.calls, p.approval));
    RequestsFollowOn(c.task.goal, c.log, Ran(p.calls, p.approval));
  }

  lemma ResultsFollow(cfg: Config, c: Cell, p: Process, results: seq<ToolResult>)
    requires CellFollows(c) && c.task.checkpoint.None? && p.InTools? && ProcessFollows(c, p)
    requires InputFits(p, Results(results))
    ensures var (cell, next) := Advance(cfg, c, p, Results(results)); CellFollows(cell) && ProcessFollows(cell, next)
  {
    hide Transcribes, SaidInRun, ToldInRun, RequestsFollow, AfterResults;
    TurnsInTheLog(c.log, Told(results));
    RequestsFollowOn(c.task.goal, c.log, Told(results));
    OneMoreAnswer(p.driver.run, results, c.task.goal, SaidInRun(c.log), ToldInRun(c.log));
  }

  // A winning write keeps the transcript, or opens a new one.
  lemma LandingFollows(cfg: Config, c: Cell, intent: Intent, current: AgentTask, updated: AgentTask)
    requires CellOk(cfg, c) && IntentOk(cfg, c, intent) && WriteOk(c, intent, current, updated)
    requires c.task.version == current.version
    requires CellFollows(c) && IntentFollows(c, intent)
    ensures CellFollows(Landed(c, intent, updated))
    ensures ProcessFollows(Landed(c, intent, updated), Won(intent, updated, |c.log|))
  {
    hide CellOk, Resumable, DriverOk, Snapshot, Transcribes, SaidInRun, ToldInRun, RequestsFollow, FreshRun;
    var e := Committed(intent, c.task, updated);
    StoredTasksAreWellFormed(cfg, c);
    WinningWriteIsFresh(c, intent, current, updated);
    TurnsInTheLog(c.log, e);
    RequestsFollowOn(c.task.goal, c.log, e);
    if intent.Start? {
      FreshTranscript(updated.goal);
    }
    if intent.Approve? {
      ApprovalsReleaseWhatIsStored(cfg, c, intent);
    }
  }

  lemma WritingFollows(cfg: Config, c: Cell, p: Process, now: int)
    requires CellOk(cfg, c) && p.Writing? && ProcessOk(cfg, c, p) && CellFollows(c) && ProcessFollows(c, p)
    ensures var (cell, next) := Advance(cfg, c, p, Go(now)); CellFollows(cell) && ProcessFollows(cell, next)
  {
    hide CellOk, ProcessOk, IntentOk, WriteOk, CellFollows, IntentFollows, Won;
    WritersAreReady(cfg, c, p);
    if c.task.version == p.current.version {
      LandingFollows(cfg, c, p.intent, p.current, p.updated);
      assert Advance(cfg, c, p, Go(now)) == (Landed(c, p.intent, p.updated), Won(p.intent, p.updated, |c.log|));
    }
  }

  lemma QuietFollows(cfg: Config, c: Cell, p: Process, input: Input)
    requires InputFits(p, input) && ProcessFollows(c, p)
    requires input.Crash? || !(p.Asking? || p.InModel? || p.BeforeTools? || p.InTools? || p.Writing?)
    ensures var (cell, next) := Advance(cfg, c, p, input); cell == c && ProcessFollows(cell, next)
  {
    hide Follows;
  }

  lemma StepFollows(cfg: Config, c: Cell, p: Process, input: Input)
    requires CellOk(cfg, c) && ProcessOk(cfg, c, p) && InputFits(p, input)
    requires CellFollows(c) && ProcessFollows(c, p)
    ensures var (cell, next) := Advance(cfg, c, p, input); CellFollows(cell) && ProcessFollows(cell, next)
  {
    hide CellOk, ProcessOk, CellFollows, Advance, Follows, IntentFollows;
    ReportersAreLate(cfg, c, p);
    if p.Live() {
      RunningTasksHoldNothing(cfg, c);
    }
    match input
    case Crash => QuietFollows(cfg, c, p, input);
    case Reply(reply) => ReplyFollows(cfg, c, p.driver, reply);
    case Results(results) => ResultsFollow(cfg, c, p, results);
    case Go(now) =>
      match p
      case Asking(d) => AskingFollows(cfg, c, d, now);
      case BeforeTools(_, _, _) => RunningFollows(cfg, c, p, now);
      case Writing(_, _, _) => WritingFollows(cfg, c, p, now);
      case _ => QuietFollows(cfg, c, p, input);
  }

  // A commit under a live driver takes no turn out of its conversation.
  lemma CommitTakesNoTurn(c: Cell, e: Event, q: Process)
    requires ProcessFollows(c, q) && e.Committed? && !e.intent.Start? && e.after.goal == c.task.goal
    ensures ProcessFollows(Cell(e.after, c.log + [e]), q)
  {
    hide Transcribes, SaidInRun, ToldInRun;
    TurnsInTheLog(c.log, e);
  }

  lemma OthersFollow(cfg: Config, c: Cell, p: Process, input: Input, q: Process)
    requires cfg.Valid() && CellOk(cfg, c) && ProcessOk(cfg, c, p) && InputFits(p, input)
    requires ProcessOk(cfg, c, q) && ProcessFollows(c, q) && !(p.Live() && q.Live())
    ensures ProcessFollows(Advance(cfg, c, p, input).0, q)
  {
    hide CellOk, ProcessOk, Advance, Follows;
    if q.Live() {
      ReportersAreLate(cfg, c, q);
      StepOnTheTask(cfg, c, p, input);
      OnlyWritesChangeTheTask(cfg, c, p, input);
      if Advance(cfg, c, p, input).0 != c {
        CommitTakesNoTurn(c, Committed(p.intent, c.task, p.updated), q);
      }
    }
  }

  // --- Every run -------------------------------------------------------------------------------------

  ghost predicate AllFollow(s: State) {
    && (forall id | id in s.cells :: CellFollows(s.cells[id]))
    && (forall pid | pid in s.actors && s.actors[pid].id in s.cells ::
          ProcessFollows(s.cells[s.actors[pid].id], s.actors[pid].process))
  }

  lemma ActFollows(cfg: Config, s: State, m: Move)
    requires Inv(cfg, s) && m.Act? && Enabled(s, m) && s.actors[m.pid].id in s.cells && AllFollow(s)
    ensures AllFollow(Perform(cfg, s, m))
  {
    hide CellOk, ProcessOk, Advance, CellFollows, ProcessFollows;
    var Actor(id, p) := s.actors[m.pid];
    var t := Perform(cfg, s, m);
    ActorAndCell(cfg, s, m.pid);
    StepFollows(cfg, s.cells[id], p, m.input);
    forall pid | pid in t.actors && t.actors[pid].id in t.cells
      ensures ProcessFollows(t.cells[t.actors[pid].id], t.actors[pid].process)
    {
      if pid != m.pid && t.actors[pid].id == id {
        ActorAndCell(cfg, s, pid);
        OthersFollow(cfg, s.cells[id], p, m.input, s.actors[pid].process);
      }
    }
  }

  lemma NewTasksFollow(cfg: Config, s: State, m: Move)
    requires Inv(cfg, s) && m.CreateTask? && Enabled(s, m) && AllFollow(s)
    ensures AllFollow(Perform(cfg, s, m))
  {
    hide CellOk, ProcessOk, Follows;
    forall pid | pid in s.actors && s.actors[pid].id == m.id
      ensures ProcessFollows(Perform(cfg, s, m).cells[m.id], s.actors[pid].process)
    {
      assert ActorOk(cfg, s, s.actors[pid]);
    }
  }

  lemma MoveFollows(cfg: Config, s: State, m: Move)
    requires Inv(cfg, s) && Enabled(s, m) && AllFollow(s)
    ensures AllFollow(Perform(cfg, s, m))
  {
    hide CellOk, ProcessOk, Advance, Follows, CellFollows;
    match m
    case Act(pid, _) =>
      if s.actors[pid].id in s.cells {
        ActFollows(cfg, s, m);
      }
    case CreateTask(_, _, _, _) => NewTasksFollow(cfg, s, m);
    case Spawn(_, _, _) =>
  }

  lemma {:induction false} MovesFollow(cfg: Config, s: State, moves: seq<Move>)
    requires Inv(cfg, s) && Legal(cfg, s, moves) && AllFollow(s)
    ensures AllFollow(After(cfg, s, moves))
    decreases |moves|
  {
    hide Inv, Perform, Enabled, AllFollow;
    if moves != [] {
      MoveFollows(cfg, s, moves[0]);
      InvIsInductive(cfg, s, moves[0]);
      MovesFollow(cfg, Perform(cfg, s, moves[0]), moves[1..]);
    }
  }

  // The same, turn by turn and field by field.
  ghost predicate ReadsAs(messages: seq<Message>, goal: string, said: seq<Completion>, told: seq<seq<ToolResult>>) {
    && |messages| == 1 + |said| + |told|
    && messages[0].role == User && messages[0].content == "Task goal:\n" + goal
    && messages[0].toolCalls == [] && messages[0].toolResults == []
    && (forall i | 0 <= i < |messages| && i % 2 == 1 ::
          && i / 2 < |said|
          && messages[i].role == Assistant && messages[i].content == said[i / 2].text
          && messages[i].toolCalls == said[i / 2].toolCalls && messages[i].toolResults == [])
    && (forall i | 0 < i < |messages| && i % 2 == 0 ::
          && i / 2 - 1 < |told|
          && messages[i].role == User && messages[i].content == ""
          && messages[i].toolCalls == [] && messages[i].toolResults == told[i / 2 - 1])
  }

  lemma TranscriptsRead(messages: seq<Message>, goal: string, said: seq<Completion>, told: seq<seq<ToolResult>>)
    requires Transcribes(messages, goal, said, told)
    ensures ReadsAs(messages, goal, said, told)
  {
    forall i | 0 < i < |messages|
      ensures i % 2 == 1 ==>
                i / 2 < |said| && messages[i] == Message(Assistant, said[i / 2].text, said[i / 2].toolCalls, [])
      ensures i % 2 == 0 ==> i / 2 - 1 < |told| && messages[i] == Message(User, "", [], told[i / 2 - 1])
    {
      if i % 2 == 1 {
        assert i == 2 * (i / 2) + 1;
      } else {
        assert i == 2 * (i / 2 - 1) + 2;
      }
    }
  }

  // Every request ever sent opens with the task's goal and goes on with everything
  // said and answered in the run so far, in order and word for word: after the
  // goal come by turns a reply, text and calls, and what the tools answered it,
  // content included, and nothing else.
  lemma TheModelIsToldEverything(cfg: Config, moves: seq<Move>, id: TaskId, i: nat)
    requires cfg.Valid() && Legal(cfg, EMPTY, moves) && id in Reached(cfg, moves).cells
    requires i < |Reached(cfg, moves).cells[id].log| && Reached(cfg, moves).cells[id].log[i].Asked?
    ensures var c := Reached(cfg, moves).cells[id];
            var before := c.log[..i];
            && |SaidInRun(before)| == |ToldInRun(before)|
            && ReadsAs(c.log[i].messages, c.task.goal, SaidInRun(before), ToldInRun(before))
  {
    hide Legal, After, SaidInRun, ToldInRun, Transcribes, ReadsAs;
    InvInitially(cfg);
    MovesFollow(cfg, EMPTY, moves);
    var c := Reached(cfg, moves).cells[id];
    assert CellFollows(c);
    TranscriptsRead(c.log[i].messages, c.task.goal, SaidInRun(c.log[..i]), ToldInRun(c.log[..i]));
  }

  // And so does every run held for approval, up to the turn it is held at.
  lemma HeldRunsRememberEverything(cfg: Config, moves: seq<Move>, id: TaskId)
    requires cfg.Valid() && Legal(cfg, EMPTY, moves) && id in Reached(cfg, moves).cells
    requires Reached(cfg, moves).cells[id].task.checkpoint.Some?
    ensures var c := Reached(cfg, moves).cells[id];
            && |SaidInRun(c.log)| == |ToldInRun(c.log)| + 1
            && ReadsAs(c.task.checkpoint.value.messages, c.task.goal, SaidInRun(c.log), ToldInRun(c.log))
  {
    hide Legal, After, SaidInRun, ToldInRun, Transcribes, ReadsAs;
    InvInitially(cfg);
    MovesFollow(cfg, EMPTY, moves);
    var c := Reached(cfg, moves).cells[id];
    assert CellFollows(c);
    TranscriptsRead(c.task.checkpoint.value.messages, c.task.goal, SaidInRun(c.log), ToldInRun(c.log));
  }
}
