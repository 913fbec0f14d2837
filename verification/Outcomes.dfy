/** What a run is stored as, and what its caller is told, goes back to the last
    thing the model said to it. */
module Outcomes {
  import opened Wrappers
  import opened Messages
  import opened Tasks
  import opened RunLogic
  import opened Protocol
  import opened ProtocolInvariant
  import opened ProtocolTheorems

  function LastHeard(log: seq<Event>): Option<Completion> {
    if log == [] then None
    else if log[|log| - 1].Heard? then Some(log[|log| - 1].completion)
    else LastHeard(log[..|log| - 1])
  }

  lemma LastHeardInTheLog(log: seq<Event>, e: Event)
    ensures LastHeard(log + [e]) == if e.Heard? then Some(e.completion) else LastHeard(log)
  {
    assert (log + [e])[..|log|] == log;
  }

  // Completed on a plain answer, with its text; paused on a tool turn, with its
  // text and its calls; failed without any text.
  predicate Follows(heard: Option<Completion>, intent: Intent)
    requires intent.Finish?
  {
    && (intent.status == Completed ==>
          heard.Some? && heard.value.stopReason in {EndTurn, StopSequence} && intent.output == heard.value.text)
    && (intent.status == AwaitingApproval ==>
          && heard.Some? && heard.value.stopReason == ToolUse && intent.output == heard.value.text
          && intent.checkpoint.Some? && intent.checkpoint.value.PendingCalls() == heard.value.toolCalls)
    && (intent.status == Failed ==> intent.output == "")
  }

  predicate ProcessFollows(c: Cell, p: Process) {
    (p.Loading? || p.Writing?) && p.intent.Finish? ==> Follows(LastHeard(c.log), p.intent)
  }

  predicate OutcomeFollows(heard: Option<Completion>, e: Event) {
    e.Committed? && e.intent.Finish? ==>
      && Follows(heard, e.intent)
      && e.after.status == e.intent.status && e.after.checkpoint == e.intent.checkpoint
      && e.after.status in {Completed, Failed, AwaitingApproval}
  }

  ghost predicate LogFollows(log: seq<Event>) {
    forall i | 0 <= i < |log| :: OutcomeFollows(LastHeard(log[..i]), log[i])
  }

  lemma LogFollowsOn(log: seq<Event>, e: Event)
    requires LogFollows(log)
    requires OutcomeFollows(LastHeard(log), e)
    ensures LogFollows(log + [e])
  {
    var all := log + [e];
    forall i | 0 <= i < |all|
      ensures OutcomeFollows(LastHeard(all[..i]), all[i])
    {
      assert all[..i] == log[..i];
      assert log[..|log|] == log;
    }
  }

  lemma ReplyIsFollowed(cfg: Config, c: Cell, p: Process, reply: ModelReply)
    requires p.InModel? && reply.Valid()
    ensures var (cell, next) := Advance(cfg, c, p, Reply(reply)); ProcessFollows(cell, next)
  {
    WhatAReplyDecides(cfg, p.driver.run, reply);
    if reply.Replied? {
      LastHeardInTheLog(c.log, Heard(reply.completion));
    }
  }

  lemma StepIsFollowed(cfg: Config, c: Cell, p: Process, input: Input)
    requires InputFits(p, input) && ProcessFollows(c, p)
    ensures var (cell, next) := Advance(cfg, c, p, input); ProcessFollows(cell, next)
  {
    hide AfterReply, LastHeard;
    if input.Reply? {
      ReplyIsFollowed(cfg, c, p, input.reply);
    }
  }

  lemma StepKeepsTheLog(cfg: Config, c: Cell, p: Process, input: Input)
    requires cfg.Valid() && CellOk(cfg, c) && ProcessOk(cfg, c, p) && InputFits(p, input)
    requires ProcessFollows(c, p) && LogFollows(c.log)
    ensures LogFollows(Advance(cfg, c, p, input).0.log)
  {
    hide CheckpointOk, CommitsOk, ApprovalsOk, BatchesOk, RequestsOk, BudgetOk, PolicyOk;
    hide Advance, Follows, LastHeard, Resumable, LifecyclePath;
    StepOnTheTask(cfg, c, p, input);
    var cell := Advance(cfg, c, p, input).0;
    if p.Writing? && cell.log == c.log + [Committed(p.intent, c.task, p.updated)] {
      assert cell.log[|c.log|].Committed?;
      WinningWriteIsFresh(c, p.intent, p.current, p.updated);
      LogFollowsOn(c.log, Committed(p.intent, c.task, p.updated));
    } else if cell != c {
      var e :| cell.log == c.log + [e] && !e.Committed?;
      LogFollowsOn(c.log, e);
    }
  }

  // Somebody else's step says nothing to this run.
  lemma OthersSayNothing(cfg: Config, c: Cell, p: Process, input: Input, q: Process)
    requires cfg.Valid() && CellOk(cfg, c) && ProcessOk(cfg, c, p) && InputFits(p, input)
    requires ProcessFollows(c, q) && !(p.Live() && q.Live())
    ensures ProcessFollows(Advance(cfg, c, p, input).0, q)
  {
    hide CellOk, ProcessOk, Advance, Follows, LastHeard;
    StepOnTheTask(cfg, c, p, input);
    if p.Writing? {
      LastHeardInTheLog(c.log, Committed(p.intent, c.task, p.updated));
    }
  }

  ghost predicate AllFollow(s: State) {
    && (forall id | id in s.cells :: LogFollows(s.cells[id].log))
    && (forall pid | pid in s.actors && s.actors[pid].id in s.cells ::
          ProcessFollows(s.cells[s.actors[pid].id], s.actors[pid].process))
  }

  lemma ActFollows(cfg: Config, s: State, m: Move)
    requires Inv(cfg, s) && m.Act? && Enabled(s, m) && s.actors[m.pid].id in s.cells && AllFollow(s)
    ensures AllFollow(Perform(cfg, s, m))
  {
    hide CellOk, ProcessOk, Advance, ProcessFollows, LogFollows;
    var Actor(id, p) := s.actors[m.pid];
    var t := Perform(cfg, s, m);
    ActorAndCell(cfg, s, m.pid);
    StepIsFollowed(cfg, s.cells[id], p, m.input);
    StepKeepsTheLog(cfg, s.cells[id], p, m.input);
    forall pid | pid in t.actors && t.actors[pid].id in t.cells
      ensures ProcessFollows(t.cells[t.actors[pid].id], t.actors[pid].process)
    {
      if pid != m.pid && t.actors[pid].id == id {
        OthersSayNothing(cfg, s.cells[id], p, m.input, s.actors[pid].process);
      }
    }
  }

  lemma MoveFollows(cfg: Config, s: State, m: Move)
    requires Inv(cfg, s) && Enabled(s, m) && AllFollow(s)
    ensures AllFollow(Perform(cfg, s, m))
  {
    hide CellOk, ProcessOk, Advance;
    match m
    case Act(pid, _) =>
      if s.actors[pid].id in s.cells {
        ActFollows(cfg, s, m);
      }
    case CreateTask(id, _, _, _) =>
      forall pid | pid in s.actors && s.actors[pid].id == id
        ensures !(s.actors[pid].process.Loading? && s.actors[pid].process.intent.Finish?)
        ensures !s.actors[pid].process.Writing?
      {
        assert ActorOk(cfg, s, s.actors[pid]);
      }
    case Spawn(_, _, _) =>
  }

  lemma {:induction false} MovesFollow(cfg: Config, s: State, moves: seq<Move>)
    requires Inv(cfg, s) && Legal(cfg, s, moves) && AllFollow(s)
    ensures AllFollow(After(cfg, s, moves))
    decreases |moves|
  {
    hide Inv, Perform, Enabled, AllFollow;
    if moves != [] {
      MoveFollows(cfg, s, moves[0]);
      InvIsInductive(cfg, s, moves[0]);
      MovesFollow(cfg, Perform(cfg, s, moves[0]), moves[1..]);
    }
  }

  // A task is stored as completed only on the model's plain answer, and as waiting
  // only on its tool turn, the very last thing it said; the text handed back is
  // the text it said, and what is held is what it asked for.
  lemma OutcomesFollowTheLastReply(cfg: Config, moves: seq<Move>, id: TaskId, i: nat)
    requires cfg.Valid() && Legal(cfg, EMPTY, moves) && id in Reached(cfg, moves).cells
    requires var log := Reached(cfg, moves).cells[id].log;
             i < |log| && log[i].Committed? && log[i].intent.Finish?
    ensures var log := Reached(cfg, moves).cells[id].log;
            var heard, status := LastHeard(log[..i]), log[i].after.status;
            && status in {Completed, Failed, AwaitingApproval}
            && (status == Completed ==> heard.Some? && heard.value.stopReason in {EndTurn, StopSequence})
            && (status == AwaitingApproval ==>
                  && heard.Some? && heard.value.stopReason == ToolUse
                  && log[i].after.checkpoint.Some?
                  && log[i].after.checkpoint.value.PendingCalls() == heard.value.toolCalls)
            && log[i].intent.output == if status == Failed then "" else heard.value.text
  {
    InvInitially(cfg);
    MovesFollow(cfg, EMPTY, moves);
    var log := Reached(cfg, moves).cells[id].log;
    assert OutcomeFollows(LastHeard(log[..i]), log[i]);
  }
}
