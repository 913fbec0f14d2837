# Formal model of the enterprise agent platform

This project models three parts of the platform in Dafny and proves what they promise.

**Tasks, approval and the agent run.** A task is an immutable, versioned value with an audit
history. Starters, drivers, approvers, rejecters and cancellers share it through a repository
they can only `get` from and later `update` at an expected version. The model has three layers:

- *As written.* `Repository`, `Postgres`, `Registry` and `Runner` hold the classes of the source,
  with their mutable dictionaries, counters and growing conversation. Each method is proved to
  compute a function of `RunSemantics` or of the store.
- *Interleaved.* `Protocol` is a step relation over any number of processes on any number of tasks.
  Every `get`, `update`, model call, model reply, tool batch and batch result is a separate step,
  a process may hold a stale snapshot as long as it likes, and may crash anywhere.
  `ProtocolInvariant` proves one inductive invariant; `ProtocolTheorems`, `HeldTurns`, `Accounts`,
  `Conversations`, `Outcomes`, `Provenance`, `Cancellation` and `Lifetimes` draw the guarantees from
  it, for every legal sequence of moves from the empty system.
- *Atomic.* `Repository.AtomicTransition` reads, checks and writes in one step.
  `Linearizability` proves that the interleaved layer refines it, and that a Postgres table
  updated five columns at a time follows it. `AtomicProtocol` is the whole protocol with every
  transition done that way; it reaches exactly the stores the interleaved one does. A driver
  whose write is refused as stale is discarded in both; any other process is there one that stopped
  before it did anything.

The step functions in `RunLogic` are shared by the first two layers. `SoloRuns` proves that what the
sequential runner computes for a call of `run`, `approve_task` or `reject_task`, with other people's
cancellations arriving while it waits, is what one interleaving of the protocol does, store and answer
alike. `Pausing` proves that pausing for approval does not change what a run does.

**The MCP reply multiplexer.** `Transport` models the pending futures of the stdio transport, under
arbitrary frames, failures and abandonments, following section 5 (Response object) of JSON-RPC 2.0.

**JSON schemas.** `Schema` gives the meaning of the keywords the platform relies on, following
sections 10.2.1 and 10.3 of JSON Schema Core 2020-12 and sections 6.1.1 and 6.5.3 of JSON Schema
Validation 2020-12, patterns included. `SchemaClosing` and `ArgumentsModel` prove what the two schema
translations do to it.

Verify with `dafny verify dfyconfig.toml`.

## How to read the model

- The model backend, the tools' handlers and (in the sequential layer) other people's
  cancellations are one deterministic environment over an arbitrary state of the world. In the
  interleaved layer they are unconstrained inputs; a model reply must pass the `Completion`
  validator and batch results must answer their calls, which `ToolRegistry.ExecuteAll` proves they
  do.
- Reasons recorded in the history are structured values instead of rendered text; the text of a
  discarded run's detail is `RunStopped`. Clock readings are inputs.
- `log` in a protocol cell records what was done to a task, said and answered, in order. It constrains nothing; the
  theorems are stated over it.
- The tool registry, the approval threshold, `max_steps` and the second-person policy are fixed.
- In `Schema`, what a pattern matches and what every keyword other than the modelled ones means are
  parameters, so the theorems hold for all of them at once, as long as closing does not change those
  keywords' arguments (`Positive`). `Lenient` is all that is assumed about how Pydantic judges one value.

## Where the code and its documentation differ

**`run` restarts paused tasks.** It is documented to take pending tasks only (agent/runner.py:201,
README.md:172), but the lifecycle table also lets it restart a task that is waiting for approval, on a
fresh budget (tasks/models.py:42). The model follows the code. `RunIsAsDocumentedUnlessPaused` says
exactly when the two agree. `RestartsAreWhatALifeCosts` charges one step budget to every restart, and
`OneBudgetIfRunsFindNothingPaused` shows that under the documented precondition there is none, so that
a whole life fits in one budget. The precondition has to hold when `run` reads the task: seeing it
pending before the call is not enough (`CheckingBeforeTheCallIsNotEnough`). Without it versions are
bounded exactly when no tool is above the approval threshold
(`VersionsAreBoundedIffNothingNeedsApproval`).

**The derived argument model can refuse what the schema allows.** It is documented never to
(mcp/tools.py:14-17, mcp/tools.py:164-166), but it closes the door on every name that is not a listed
property, while in JSON Schema a closed object still takes the names its `patternProperties` match.
`PatternedArgumentsAreRefused` gives the schema and the arguments. `TheModelOnlyWidens` says exactly
which allowed arguments are refused, and `WithoutPatternsNothingIsRefused` which schemas are safe.

## Model

| member | source | states |
|---|---|---|
| Tasks.TransitionKeepsTheTaskWellFormed | src/enterprise_agent_platform/tasks/models.py:152-198 | a transition succeeds iff the table has the edge and the checkpoint fits the target, and is refused with the exact error otherwise; it appends one record with the edge, the reason and the time, keeps history a path, version one more than its length, and the four identity fields |
| Tasks.PathIsContiguous | src/enterprise_agent_platform/tasks/models.py:31-46 | a lifecycle path starts at pending, follows the table edge by edge, each edge leaving where the last arrived, and ends at the current status |
| Tasks.TheTableByTargets | src/enterprise_agent_platform/tasks/models.py:31-46 | nothing becomes pending; running comes from pending or a pause; what a run comes to comes from running; and exactly the undecided can be cancelled |
| Messages.AnsweringAPause | src/enterprise_agent_platform/llm/models.py:94-111 | answering a paused turn position by position passes the message validator, makes the conversation continuable and adds exactly its answered calls |
| Messages.ConversationTurns | src/enterprise_agent_platform/llm/models.py:103-139 | a continuable conversation alternates from the user, answers every tool turn call by call, and passes the request and message validators |
| Repository.InMemoryTaskRepository.Add | src/enterprise_agent_platform/tasks/repository.py:77-80 | stores the task iff its id is new; otherwise refuses and changes nothing |
| Repository.InMemoryTaskRepository.Get | src/enterprise_agent_platform/tasks/repository.py:82-86 | the stored task, or not-found |
| Repository.InMemoryTaskRepository.Update | src/enterprise_agent_platform/tasks/repository.py:88-94 | replaces the whole task iff the stored version is the expected one; otherwise the exact error and no change |
| Repository.InMemoryTaskRepository.ListTasks | src/enterprise_agent_platform/tasks/repository.py:96-104 | the `limit` greatest matching tasks in strictly descending (created_at, id) order |
| Listing.ListingIsUnique | src/enterprise_agent_platform/tasks/repository.py:100-104 | a store has exactly one listing for a status and a limit |
| Listing.ListOfIsListing | src/enterprise_agent_platform/tasks/repository.py:99-104 | filter, sort and slice over any enumeration of the dictionary give that listing |
| Listing.ListOfIgnoresOrder | src/enterprise_agent_platform/tasks/repository.py:96-104 | insertion and update order never show in the answer |
| Repository.TransitionTask | src/enterprise_agent_platform/tasks/service.py:14-55 | alone, read / check / write is exactly the atomic transition, result and store |
| Postgres.PostgresTaskRepository.Update | src/enterprise_agent_platform/tasks/postgres.py:200-227 | one conditional statement on five columns, leaving the other four and every other row; the error explains why no row matched |
| Postgres.PartialWriteIsAReplacement | src/enterprise_agent_platform/tasks/postgres.py:85-93 | writing five columns equals replacing the object iff id, goal, requester and creation time are kept |
| Postgres.SqlListsTheSame | src/enterprise_agent_platform/tasks/postgres.py:95-106 | any answer to the SQL query is, row by row, the in-memory list |
| Registry.ToolRegistry.Register | src/enterprise_agent_platform/tools/registry.py:60-70 | a name is registered at most once, and a refusal changes nothing |
| Registry.ToolRegistry.Execute | src/enterprise_agent_platform/tools/registry.py:83-165 | every failure is data under the call's own id; not an error iff a known tool accepted the arguments and returned text; the text, or the tool's own error message, is what comes back |
| Registry.ToolRegistry.ExecuteAll | src/enterprise_agent_platform/tools/registry.py:167-174 | one result per call, in order, answering the calls position by position, each with what its own handler returned or reported |
| RunLogic.ReplyKeepsTheRunInShape | src/enterprise_agent_platform/agent/runner.py:384-412 | whatever the model replies, the run settles, pauses with a checkpoint it can be continued from, or stands on a tool turn no call of which needs a human; usage grows by exactly that reply |
| RunLogic.ResultsKeepTheRunInShape | src/enterprise_agent_platform/agent/runner.py:347-353 | answering the turn brings the run back to the loop head with `len(messages) = 2*steps + 1` and every answered call counted |
| RunLogic.RequestsAreWellFormed | src/enterprise_agent_platform/agent/runner.py:365-374 | no request the loop builds can fail a validator |
| RunLogic.TheViewShowsTheWholeTurn | src/enterprise_agent_platform/agent/runner.py:313-330 | the approval view is the held turn in order, shows each registered tool's own risk, flags exactly the known tools above the threshold, at least one, and exactly the names the pause recorded |
| Runner.RunState.Record | src/enterprise_agent_platform/agent/runner.py:141-143 | adds one usage, input to input and output to output, touches no other counter |
| Runner.AgentRunner.Drive | src/enterprise_agent_platform/agent/runner.py:355-419 | the loop over the growing conversation computes `Driving`, store, world, batches and result |
| Runner.AgentRunner.Conclude | src/enterprise_agent_platform/agent/runner.py:421-442 | fails with the reason of the stop reason and no text, or completes with the model's text |
| Runner.AgentRunner.Finish | src/enterprise_agent_platform/agent/runner.py:457-496 | commits the outcome and hands back its own text, reason, counters and held calls, or reports the task as somebody else left it, with no text |
| Runner.AgentRunner.Discard | src/enterprise_agent_platform/agent/runner.py:498-520 | reports the stored task, no output, a stopped detail, changes nothing |
| Runner.AgentRunner.Continue | src/enterprise_agent_platform/agent/runner.py:347-353 | executes the held turn, then drives on with the checkpoint's conversation and counters |
| Runner.AgentRunner.RunTask | src/enterprise_agent_platform/agent/runner.py:200-224 | computes `Starting`: the first request carries the task's goal; a task that cannot be started is refused with the exact error and nothing changes |
| Runner.AgentRunner.Resume | src/enterprise_agent_platform/agent/runner.py:226-270 | computes `Approving`, with every refusal of the source in its order and nothing changed |
| Runner.AgentRunner.Reject | src/enterprise_agent_platform/agent/runner.py:272-311 | computes `Rejecting`: the held task is cancelled on record, or refused with the exact error |
| RunSemantics.PausingSpendsAStep | src/enterprise_agent_platform/agent/runner.py:360-408 | a drive that comes back paused holds a checkpoint with strictly more steps than it began with, within the budget, whoever cancels meanwhile |
| RunSemantics.RunIsAsDocumentedUnlessPaused | src/enterprise_agent_platform/agent/runner.py:200-216 | `run` accepts exactly pending tasks, as documented, iff the task is not awaiting approval |
| Pausing.PausingIsTransparent | src/enterprise_agent_platform/agent/runner.py:226-270 | paused and approved any number of times, a run ends like the same run with nothing gated: status, output, detail, counters, usage, requests, batches, world, and, record by record, history without its pauses |
| Pausing.EnoughApprovalsEndTheRun | src/enterprise_agent_platform/agent/runner.py:236-239 | as many approvals as the budget has steps always suffice: a run cannot be approved around its budget, whoever cancels |
| ProtocolInvariant.InvIsInductive | src/enterprise_agent_platform/tasks/service.py:40-44 | every move of any actor, in any interleaving, keeps the system invariant |
| ProtocolInvariant.WinningWriteIsFresh | src/enterprise_agent_platform/tasks/service.py:40-44 | a write that passes the version check replaces exactly the task that was read, along an edge of the table |
| ProtocolTheorems.HistoriesOnlyGrow | src/enterprise_agent_platform/tasks/models.py:158-198 | over any run a history only grows by appending, identity fields stay, equal versions are equal tasks, a terminal task never changes |
| ProtocolTheorems.StoredHistoriesArePaths | src/enterprise_agent_platform/tasks/models.py:31-46 | every stored history is a contiguous path from pending to the stored status, with version one more than its length |
| ProtocolTheorems.OneDriverPerTask | src/enterprise_agent_platform/agent/runner.py:15-18 | at most one live driver per task, and its task is running at the version it committed or cancelled at the next |
| ProtocolTheorems.FinishOnlyReplacesItsOwnRun | src/enterprise_agent_platform/agent/runner.py:467-474 | a finishing write that lands replaces exactly the running version its own run committed, though no version is stated |
| ProtocolTheorems.PausedMeansResumable | src/enterprise_agent_platform/agent/runner.py:248-252 | awaiting approval iff a continuable checkpoint is held; "no paused run to resume" is never raised |
| ProtocolTheorems.HumansSeeWhatThePauseSaw | src/enterprise_agent_platform/agent/runner.py:313-330 | the view of any stored paused task, with the tools' own risks, and the reason on record name the same calls |
| ProtocolTheorems.ResumeContinuesTheStoredRun | src/enterprise_agent_platform/agent/runner.py:249-270 | if a resume commits, the run it continues is the checkpoint stored at that instant; otherwise it reports the conflict |
| ProtocolTheorems.ReleasesGoBackToApprovals | src/enterprise_agent_platform/agent/runner.py:347-353 | a batch with a gated call was released by an earlier approval of the exact paused task holding its calls, and no paused version is released twice |
| HeldTurns.EveryBatchIsAWholeTurn | src/enterprise_agent_platform/agent/runner.py:388-412 | every batch in any log is the whole tool turn the model spoke last, with nothing run and nothing denied since |
| HeldTurns.NoTurnRunsTwice | src/enterprise_agent_platform/agent/runner.py:347-353 | two batches of one turn are the same batch |
| HeldTurns.HeldCallsAreReleasedOnce | src/enterprise_agent_platform/agent/runner.py:390-408 | of a turn with a gated call, no call, gated or not, runs but in one batch, whole, after an approval given since the model asked, of the exact paused task holding the turn; no other release goes back to that paused version |
| HeldTurns.DeniedCallsNeverRun | src/enterprise_agent_platform/agent/runner.py:280-286 | of the turn a paused version held, if it is left by rejection, cancellation or a fresh run, no call, gated or not, has run or ever runs, and nothing is released from that version |
| HeldTurns.BatchesStayWithinTheBudget | src/enterprise_agent_platform/agent/runner.py:360-412 | over a whole life, tool batches are at most replies, replies at most model calls, and those at most max_steps per winning start |
| Provenance.TasksComeFromTheirRequest | src/enterprise_agent_platform/tasks/router.py:204-217 | every stored task was made by exactly one request and has that request's goal, requester and creation time, whatever happened since |
| Provenance.NobodyApprovesTheirOwnTask | src/enterprise_agent_platform/tasks/router.py:304-328 | with the second-person policy on, no stored approval is by whoever requested the task when it was created, though the check reads outside the versioned write |
| Provenance.OnlyTheRequesterIsRefused | src/enterprise_agent_platform/tasks/router.py:312-320 | an approval is forbidden only with the policy on, and only on a task whose own requester asked to approve it |
| Provenance.TheAuditTrailIsTrue | src/enterprise_agent_platform/tasks/models.py:158-198 | every stored record takes the edge its reason is for; whoever it names asked for that on that task, note included; its time was read off the clock by a step; the task was last updated at its last record |
| Provenance.ExhaustedRunsSpentTheirBudget | src/enterprise_agent_platform/agent/runner.py:413-419 | a run reported out of budget has spent all of it |
| ProtocolTheorems.EveryRequestIsWellFormed | src/enterprise_agent_platform/agent/runner.py:365-374 | every request sent in any interleaving, resumed or not, is a well-formed conversation |
| Conversations.TheModelIsToldEverything | src/enterprise_agent_platform/agent/runner.py:347-412 | every request sent opens with the goal and goes on, in order and word for word, with every reply of the run, text and calls, and what the tools answered it, content included, and nothing else |
| Conversations.HeldRunsRememberEverything | src/enterprise_agent_platform/agent/runner.py:402-407 | so does every checkpoint, up to the turn it is held at |
| Accounts.PausesCarryTheCounters | src/enterprise_agent_platform/agent/runner.py:402-407 | a checkpoint holds exactly the model calls, the tool calls run and the usage since the run was started, by the log, however many pauses came before; they agree with its conversation |
| Accounts.DriversCarryTheCounters | src/enterprise_agent_platform/agent/runner.py:126-143 | the same for a live driver at the loop head; resuming neither resets nor double counts |
| Accounts.ResultsAreHonest | src/enterprise_agent_platform/agent/runner.py:466-520 | a returned result is completed, failed, awaiting or cancelled; settled, its detail is the recorded reason, its text is what the model said last before the run's own commit (none if it failed), and its counters are the log's there; discarded or abandoned, it reports the cancelled task as stored, no text, and all the run ever spent; held calls are exactly the checkpoint's |
| Outcomes.OutcomesFollowTheLastReply | src/enterprise_agent_platform/agent/runner.py:384-442 | in every log, a run is stored as completed only on a plain answer and as waiting only on a tool turn, the last thing the model said; the text handed back and the calls held are that reply's |
| ProtocolTheorems.BudgetOverAWholeLife | src/enterprise_agent_platform/agent/runner.py:236-239 | at most max_steps model calls per winning start; history at most 2*max_steps*starts + 2 |
| Cancellation.CancellationWins | src/enterprise_agent_platform/agent/runner.py:20-22 | once cancelled is stored, nothing more is committed, and at most one more model call and one more tool batch start |
| Cancellation.CancelledRunsReturn | src/enterprise_agent_platform/agent/runner.py:360-363 | from the moment a cancellation is stored, whatever others do, nine steps of its own bring a live driver back to its caller, unsettled, with the cancelled task |
| Linearizability.EveryRunIsLinearizable | src/enterprise_agent_platform/tasks/service.py:40-44 | any interleaving leaves the store that its winning transitions, done atomically one after another, leave |
| AtomicProtocol.InterleavedRunsAreAtomic | src/enterprise_agent_platform/tasks/service.py:40-44 | every interleaved run is matched by a run in which each transition reads, checks and writes in one step, with the same tasks and the same record of what was done to them |
| AtomicProtocol.AtomicRunsAreInterleaved | src/enterprise_agent_platform/tasks/service.py:14-55 | every such run is an interleaved one, state for state |
| AtomicProtocol.SameReachableStores | src/enterprise_agent_platform/tasks/service.py:40-44 | a store is reachable by some interleaving iff it is reachable atomically |
| Linearizability.RefusalsAreJustified | src/enterprise_agent_platform/tasks/service.py:40-44 | what a transition is told at its read is what the atomic one would say at that instant |
| Linearizability.RefusedWritesAreStale | src/enterprise_agent_platform/tasks/repository.py:92-94 | a write is refused only when a strictly newer version is stored, and with the exact conflict |
| Linearizability.AVersionIsAWholeTask | src/enterprise_agent_platform/tasks/repository.py:92-94 | at any two moments of a run, equal versions of a task iff equal tasks |
| Linearizability.PostgresFollowsEveryRun | src/enterprise_agent_platform/tasks/postgres.py:85-93 | along every interleaving the table updated five columns at a time stands for the in-memory store |
| SoloRuns.RunIsAnInterleaving | src/enterprise_agent_platform/agent/runner.py:214-224 | from any state, whatever cancellations arrive, what the sequential `run` computes, store and result or error, is reached by an interleaving that disturbs nobody else; it starts iff the task is there and pending or paused |
| SoloRuns.ResumeIsAnInterleaving | src/enterprise_agent_platform/agent/runner.py:248-270 | the same for `approve_task`, second-person check and `resume` together, from any state the invariant allows; it goes on iff the task is paused and the approver may approve it |
| SoloRuns.RejectIsAnInterleaving | src/enterprise_agent_platform/agent/runner.py:280-311 | the same for `reject_task` |
| Lifetimes.RestartsAreWhatALifeCosts | src/enterprise_agent_platform/agent/runner.py:214-216 | a task is started at most once iff every winning start found it pending; model calls and version stay within one step budget per restart, plus one |
| Lifetimes.OneBudgetIfRunsFindNothingPaused | src/enterprise_agent_platform/agent/runner.py:200-216 | if no `run` finds its task waiting for approval when it reads it, the task is started at most once, makes at most max_steps model calls, and its version is at most 2*max_steps + 3 |
| Lifetimes.CheckingBeforeTheCallIsNotEnough | src/enterprise_agent_platform/agent/runner.py:214-216 | two calls of `run` issued while the task is pending can still end in a restart, wherever some tool needs approval |
| Lifetimes.RestartingAPausedTaskHasNoBound | src/enterprise_agent_platform/tasks/models.py:42-42 | where some tool needs approval, restarting paused tasks drives the version past any number |
| Lifetimes.VersionsAreBoundedIffNothingNeedsApproval | src/enterprise_agent_platform/agent/runner.py:449-455 | over all runs, versions have a bound iff no registered tool is above the threshold, and then it is three |
| Transport.StdioTransport.BeginRequest | src/enterprise_agent_platform/mcp/transport.py:120-124 | ids are consecutive and never reused, and the future is registered under its id |
| Transport.StdioTransport.Write | src/enterprise_agent_platform/mcp/transport.py:132-134 | puts a registered id on the pipe and touches no future; every id on the pipe was registered first |
| Transport.StdioTransport.Dispatch | src/enterprise_agent_platform/mcp/transport.py:212-245 | a waiting registered request with that id gets its result, or the reported error with code and detail (-32000 and "unspecified" where missing), or with neither a protocol error; no other future changes |
| Transport.StdioTransport.FailPending | src/enterprise_agent_platform/mcp/transport.py:247-250 | fails every registered waiting request with the reason and no other |
| Transport.StdioTransport.GiveUp | src/enterprise_agent_platform/mcp/transport.py:132-140 | a cancelled caller abandons its own waiting future and no other |
| Transport.StdioTransport.Leave | src/enterprise_agent_platform/mcp/transport.py:135-140 | retires one id and completes nothing |
| Transport.RepliesAreRouted | src/enterprise_agent_platform/mcp/transport.py:120-140 | under any frames, failures and abandonments, request n ends as the first event concerning it after its registration says, case by case: result, error, protocol error, channel failure, abandonment |
| Transport.CompletedAtMostOnce | src/enterprise_agent_platform/mcp/transport.py:227-229 | an outcome, once there, never changes |
| Transport.OthersAreInvisible | src/enterprise_agent_platform/mcp/transport.py:227-229 | two histories of the transport with the same first event concerning request n after its registration give it the same outcome |
| Transport.LateAndForeignEventsChangeNothing | src/enterprise_agent_platform/mcp/transport.py:135-140 | foreign, unreadable or invented frames and other callers put in anywhere, and late or duplicate replies put in once the request is decided or gone, leave its outcome as it was |
| Transport.NoReplyIsLost | src/enterprise_agent_platform/mcp/transport.py:123-134 | if lines are written only for registered ids, a frame that answers a written line comes after the registration and, unless something decided the request in between, its result or error is what the request gets |
| SchemaClosing.ClosingSealsEveryObject | src/enterprise_agent_platform/llm/anthropic_provider.py:161-184 | every object schema at any depth of any document comes out saying what extras it takes and which fields it requires |
| SchemaClosing.SealedIsLeftAlone | src/enterprise_agent_platform/llm/anthropic_provider.py:174-184 | a sealed document is returned unchanged |
| SchemaClosing.ClosingIsIdempotent | src/enterprise_agent_platform/llm/anthropic_provider.py:174-184 | closing twice is closing once, on any document |
| SchemaClosing.ClosingIsTheStrictReading | src/enterprise_agent_platform/llm/anthropic_provider.py:161-184 | valid under the closed schema iff valid under the original read with undeclared fields forbidden |
| SchemaClosing.ClosingOnlyNarrows | src/enterprise_agent_platform/llm/anthropic_provider.py:161-184 | whatever the closed schema lets through, the original allows |
| SchemaClosing.ClosingUnderNot | src/enterprise_agent_platform/llm/anthropic_provider.py:174-184 | under `not` closing never narrows strictly: it narrows iff the strict and the plain reading of the negated schema accept the same values |
| SchemaClosing.ClosingWidensUnderNot | src/enterprise_agent_platform/llm/anthropic_provider.py:174-184 | and they can differ: a concrete schema under `not` and a value only its closed form takes |
| ArgumentsModel.DeriveModel | src/enterprise_agent_platform/mcp/tools.py:140-170 | the loop over the properties builds `ModelOf` in any order of the dictionary |
| ArgumentsModel.TheModelOnlyWidens | src/enterprise_agent_platform/mcp/tools.py:165-170 | arguments the schema allows are accepted iff the door is open or every name is a listed property; a name that is not can only have come in by a pattern |
| ArgumentsModel.BroadTypesAreEnforced | src/enterprise_agent_platform/mcp/tools.py:173-181 | an accepted argument under a property with a declared type is one that type's annotation takes, or an optional null |
| ArgumentsModel.RequiredArgumentsAreThere | src/enterprise_agent_platform/mcp/tools.py:158-161 | accepted arguments hold every required property with a usable name |
| ArgumentsModel.WithoutPatternsNothingIsRefused | src/enterprise_agent_platform/mcp/tools.py:14-17 | a schema without patterns, or not closed, or with a name that cannot be a field, never sees allowed arguments refused |
| ArgumentsModel.PatternedArgumentsAreRefused | src/enterprise_agent_platform/mcp/tools.py:167-168 | a closed schema with a pattern, and arguments it allows that the derived model refuses |
| ArgumentsModel.StrictArgumentsReachTheHandler | src/enterprise_agent_platform/mcp/tools.py:11-17 | arguments valid under the provider's strict schema are valid under the server's, and accepted by the derived model under the same condition |

## Left out

- HTTP, scopes, status codes, request ids, logging and settings; of the router only the order of its reads, checks and writes is modelled.
- Vendor SDK calls, connection pools, subprocess lifetime, stderr draining and the encoding of JSON text, of jsonb columns and of rows back into tasks: taken as exact.
- Of a request to the model only the conversation is modelled, not the system prompt, the tool specifications or the token limit.
- Deadlines: a model or handler timeout is one of the failures the environment may choose, and a caller's deadline on the transport is an abandonment event.
- Nothing is claimed about a transport request ever being answered; after the reader has stopped only the caller's deadline ends it.
- A failed write on the transport makes the request leave, which is the `Left` event; partial lines and the write lock are not modelled.
- JSON booleans as reply ids, which the source accepts as integers: a frame's id is taken after that conversion.
- Schema keywords that nest schemas elsewhere (`not`, `oneOf`, `if`/`then`/`else`, `$ref`) or hold object literals (`const`, `enum`, `default`): excluded by `Positive` where closing would change them; of these only `not` is treated, on its own.
- Field names that clash with attributes of the validation library: `usable` stands for the source's name test.
- A `required` that is not an array of strings is treated as absent.
- Texts of tool failures are shortened, and truncation of long results is not modelled.
- Handlers of one batch run concurrently in the source; here a batch is one step of the world that yields one outcome per call.
- A reason of `None` on a transition: every actor of the platform records one.
- In the sequential runner other actors only cancel, while it waits; every other interleaving is covered by the protocol layer.
- Redeployment with another budget, threshold or tool set while a task is paused.
- Token digests, result bounds, tool name prefixes, page limits, the demo ledger and the scripted provider.
