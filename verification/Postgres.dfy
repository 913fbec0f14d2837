/** The relational adapter (tasks/postgres.py) as a row store whose single
    UPDATE statement is atomic. */
module Postgres {
  import opened Wrappers
  import opened Tasks
  import opened Listing

  datatype Row = Row(
    id: TaskId,
    goal: string,
    requestedBy: string,
    status: TaskStatus,
    version: nat,
    createdAt: int,
    updatedAt: int,
    history: seq<StatusTransition>,
    checkpoint: Option<RunCheckpoint>)

  type Table = map<TaskId, Row>

  // _to_task
  function ToTask(row: Row): AgentTask {
    AgentTask(row.id, row.goal, row.requestedBy, row.status, row.version,
              row.createdAt, row.updatedAt, row.history, row.checkpoint)
  }

  // The parameters of _INSERT.
  function RowOf(t: AgentTask): Row {
    Row(t.id, t.goal, t.requestedBy, t.status, t.version, t.createdAt, t.updatedAt, t.history, t.checkpoint)
  }

  // Column by column, this row holds this task.
  predicate HoldsTask(row: Row, t: AgentTask) {
    && row.id == t.id && row.goal == t.goal && row.requestedBy == t.requestedBy && row.createdAt == t.createdAt
    && HoldsProgress(row, t)
  }

  predicate HoldsProgress(row: Row, t: AgentTask) {
    && row.status == t.status && row.version == t.version && row.updatedAt == t.updatedAt
    && row.history == t.history && row.checkpoint == t.checkpoint
  }

  // The five columns of _UPDATE_IF_VERSION_MATCHES, and no other.
  function Overwritten(row: Row, t: AgentTask): Row {
    row.(status := t.status, version := t.version, updatedAt := t.updatedAt,
         history := t.history, checkpoint := t.checkpoint)
  }

  function UpdateIfVersionMatches(rows: Table, t: AgentTask, expectedVersion: nat): (Table, bool) {
    if t.id in rows && rows[t.id].version == expectedVersion then
      (rows[t.id := Overwritten(rows[t.id], t)], true)
    else
      (rows, false)
  }

  // A table stands for a store when every row reads back as the stored task.
  ghost predicate Represents(rows: Table, store: Store) {
    && rows.Keys == store.Keys
    && (forall id | id in rows :: ToTask(rows[id]) == store[id] && HoldsTask(rows[id], store[id]))
    && (forall id | id in store :: store[id].id == id)
  }

  // ORDER BY created_at DESC, id DESC LIMIT n, over the rows a WHERE clause keeps.
  ghost predicate SqlAnswer(rows: Table, status: Option<TaskStatus>, limit: nat, answer: seq<Row>) {
    && (forall i, j | 0 <= i < j < |answer| :: Newer(ToTask(answer[i]), ToTask(answer[j])))
    && |answer| <= limit
    && (forall i | 0 <= i < |answer| ::
          answer[i].id in rows && rows[answer[i].id] == answer[i] && Matches(status, ToTask(answer[i])))
    && (forall id | id in rows && Matches(status, ToTask(rows[id])) && rows[id] !in answer ::
          |answer| == limit && forall i | 0 <= i < |answer| :: Newer(ToTask(answer[i]), ToTask(rows[id])))
  }

  class PostgresTaskRepository {
    var rows: Table

    constructor ()
      ensures rows == map[]
    {
      rows := map[];
    }

    method Add(task: AgentTask) returns (r: Result<(), Error>)
      modifies this
      ensures r.Success? <==> task.id !in old(rows)
      ensures r.Success? ==> rows == old(rows)[task.id := RowOf(task)] && HoldsTask(rows[task.id], task)
      ensures r.Failure? ==> rows == old(rows) && r.error == AlreadyExists(task.id)
    {
      if task.id in rows {
        return Failure(AlreadyExists(task.id));
      }
      rows := rows[task.id := RowOf(task)];
      r := Success(());
    }

    method Get(id: TaskId) returns (r: Result<AgentTask, Error>)
      ensures r == if id in rows then Success(ToTask(rows[id])) else Failure(TaskNotFound(id))
      ensures r.Success? ==> id in rows && HoldsTask(rows[id], r.value)
    {
      if id !in rows {
        return Failure(TaskNotFound(id));
      }
      r := Success(ToTask(rows[id]));
    }

    method Update(task: AgentTask, expectedVersion: nat) returns (r: Result<(), Error>)
      modifies this
      ensures (rows, r.Success?) == UpdateIfVersionMatches(old(rows), task, expectedVersion)
      ensures r.Success? <==> task.id in old(rows) && old(rows)[task.id].version == expectedVersion
      ensures r.Success? ==>
                && rows.Keys == old(rows).Keys
                && (forall id | id in rows && id != task.id :: rows[id] == old(rows)[id])
                && HoldsProgress(rows[task.id], task)
                && rows[task.id].id == old(rows)[task.id].id && rows[task.id].goal == old(rows)[task.id].goal
                && rows[task.id].requestedBy == old(rows)[task.id].requestedBy
                && rows[task.id].createdAt == old(rows)[task.id].createdAt
      ensures r.Failure? ==> rows == old(rows)
      ensures r.Failure? ==> r.error == if task.id !in old(rows) then TaskNotFound(task.id)
                                        else ConcurrentUpdate(task.id, expectedVersion, old(rows)[task.id].version)
    {
      var updated := UpdateIfVersionMatches(rows, task, expectedVersion);
      rows := updated.0;
      if updated.1 {
        return Success(());
      }
      if task.id !in rows {
        return Failure(TaskNotFound(task.id));
      }
      r := Failure(ConcurrentUpdate(task.id, expectedVersion, rows[task.id].version));
    }
  }

  // Writing five columns is the same as replacing the object exactly when the
  // object keeps the four columns the statement leaves out.
  lemma PartialWriteIsAReplacement(rows: Table, store: Store, t: AgentTask, expectedVersion: nat)
    requires Represents(rows, store)
    requires t.id in store && store[t.id].version == expectedVersion
    ensures Represents(UpdateIfVersionMatches(rows, t, expectedVersion).0, store[t.id := t])
            <==> t.SameIdentity(store[t.id])
  {
    var written := UpdateIfVersionMatches(rows, t, expectedVersion).0;
    assert ToTask(rows[t.id]) == store[t.id];
    if Represents(written, store[t.id := t]) {
      assert ToTask(written[t.id]) == t;
    }
  }

  // The SQL query and the sorted dictionary give the same answer.
  lemma SqlListsTheSame(
      rows: Table, store: Store, values: seq<AgentTask>, status: Option<TaskStatus>, limit: nat, answer: seq<Row>)
    requires Represents(rows, store)
    requires Enumerates(values, store)
    requires SqlAnswer(rows, status, limit, answer)
    ensures seq(|answer|, i requires 0 <= i < |answer| => ToTask(answer[i])) == ListOf(values, status, limit)
  {
    var tasks := seq(|answer|, i requires 0 <= i < |answer| => ToTask(answer[i]));
    forall i | 0 <= i < |tasks|
      ensures InStore(store, tasks[i]) && Matches(status, tasks[i])
    {
      assert ToTask(rows[answer[i].id]) == store[answer[i].id];
    }
    forall t | InStore(store, t) && Matches(status, t) && t !in tasks
      ensures |tasks| == limit && forall i | 0 <= i < |tasks| :: Newer(tasks[i], t)
    {
      assert ToTask(rows[t.id]) == t;
      assert forall i | 0 <= i < |answer| :: tasks[i] in tasks && ToTask(answer[i]) == tasks[i];
      assert rows[t.id] !in answer;
    }
    ListOfIsListing(store, values, status, limit);
    ListingIsUnique(store, status, limit, tasks, ListOf(values, status, limit));
  }
}
