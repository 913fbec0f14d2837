/** The dictionary-backed repository (tasks/repository.py) and the
    read / check / write every actor goes through (tasks/service.py). */
module Repository {
  import opened Wrappers
  import opened Tasks
  import opened Listing

  // Every task is stored under its own id.
  predicate Keyed(tasks: Store) {
    forall id | id in tasks :: tasks[id].id == id
  }

  /** `transition_task` as one indivisible step on a store: the meaning the
      sequential method below implements and the concurrent protocol refines. */
  function AtomicTransition(
      tasks: Store, id: TaskId, target: TaskStatus, reason: Reason, checkpoint: Option<RunCheckpoint>,
      expectedVersion: Option<nat>, now: int)
    : Result<AgentTask, Error>
  {
    if id !in tasks then
      Failure(TaskNotFound(id))
    else if expectedVersion.Some? && tasks[id].version != expectedVersion.value then
      Failure(ConcurrentUpdate(id, expectedVersion.value, tasks[id].version))
    else
      tasks[id].TransitionTo(target, reason, checkpoint, now)
  }

  lemma AtomicTransitionKeepsTheId(
      tasks: Store, id: TaskId, target: TaskStatus, reason: Reason, checkpoint: Option<RunCheckpoint>,
      expectedVersion: Option<nat>, now: int)
    requires Keyed(tasks)
    ensures var r := AtomicTransition(tasks, id, target, reason, checkpoint, expectedVersion, now);
            r.Success? ==> id in tasks && r.value.id == id
  {}

  // The store a transition leaves behind: replaced on success, untouched on failure.
  function Written(tasks: Store, r: Result<AgentTask, Error>): Store {
    if r.Success? then tasks[r.value.id := r.value] else tasks
  }

  class InMemoryTaskRepository {
    var tasks: Store
    var order: seq<TaskId>  // the dictionary's insertion order

    ghost predicate Valid()
      reads this
    {
      && Keyed(tasks)
      && (forall id :: id in tasks <==> id in order)
      && (forall i, j | 0 <= i < j < |order| :: order[i] != order[j])
    }

    constructor ()
      ensures Valid() && tasks == map[]
    {
      tasks := map[];
      order := [];
    }

    method Add(task: AgentTask) returns (r: Result<(), Error>)
      requires Valid()
      modifies this
      ensures Valid()
      ensures r.Success? <==> task.id !in old(tasks)
      ensures r.Success? ==> tasks == old(tasks)[task.id := task] && order == old(order) + [task.id]
      ensures r.Failure? ==> r.error == AlreadyExists(task.id) && tasks == old(tasks) && order == old(order)
    {
      if task.id in tasks {
        return Failure(AlreadyExists(task.id));
      }
      tasks := tasks[task.id := task];
      order := order + [task.id];
      r := Success(());
    }

    method Get(id: TaskId) returns (r: Result<AgentTask, Error>)
      ensures r == if id in tasks then Success(tasks[id]) else Failure(TaskNotFound(id))
    {
      if id in tasks {
        r := Success(tasks[id]);
      } else {
        r := Failure(TaskNotFound(id));
      }
    }

    method Update(task: AgentTask, expectedVersion: nat) returns (r: Result<(), Error>)
      requires Valid()
      modifies this
      ensures Valid() && order == old(order)
      ensures r.Success? <==> task.id in old(tasks) && old(tasks)[task.id].version == expectedVersion
      ensures r.Success? ==> tasks == old(tasks)[task.id := task]
      ensures r.Failure? ==> tasks == old(tasks)
      ensures r.Failure? ==> r.error == if task.id !in old(tasks) then TaskNotFound(task.id)
                                        else ConcurrentUpdate(task.id, expectedVersion, old(tasks)[task.id].version)
    {
      if task.id !in tasks {
        return Failure(TaskNotFound(task.id));
      }
      var current := tasks[task.id];
      if current.version != expectedVersion {
        return Failure(ConcurrentUpdate(task.id, expectedVersion, current.version));
      }
      tasks := tasks[task.id := task];
      r := Success(());
    }

    // The answer is a listing of the store, whatever order it was filled in.
    method ListTasks(status: Option<TaskStatus>, limit: nat) returns (answer: seq<AgentTask>)
      requires Valid()
      ensures IsListing(tasks, status, limit, answer)
      ensures forall i | 0 <= i < |answer| :: status.None? || answer[i].status == status.value
      ensures forall i, j | 0 <= i < j < |answer| ::
                answer[i].createdAt > answer[j].createdAt
                || (answer[i].createdAt == answer[j].createdAt && answer[i].id > answer[j].id)
    {
      var values := seq(|order|, i requires 0 <= i < |order| reads this requires order[i] in tasks => tasks[order[i]]);
      answer := ListOf(values, status, limit);
      assert Enumerates(values, tasks) by {
        assert forall i | 0 <= i < |values| :: values[i].id == order[i];
        forall t | InStore(tasks, t)
          ensures t in values
        {
          var i :| 0 <= i < |order| && order[i] == t.id;
          assert values[i] == t;
        }
      }
      ListOfIsListing(tasks, values, status, limit);
    }
  }

  /** `transition_task`: when nobody else runs between its read and its write it
      is exactly the atomic transition. */
  method TransitionTask(
      repository: InMemoryTaskRepository, id: TaskId, target: TaskStatus, reason: Reason,
      checkpoint: Option<RunCheckpoint>, expectedVersion: Option<nat>, now: int)
    returns (r: Result<AgentTask, Error>)
    requires repository.Valid()
    modifies repository
    ensures repository.Valid() && repository.order == old(repository.order)
    ensures r == AtomicTransition(old(repository.tasks), id, target, reason, checkpoint, expectedVersion, now)
    ensures repository.tasks == Written(old(repository.tasks), r)
    ensures r.Success? ==> r.value.id == id
  {
    hide AgentTask.TransitionTo;
    ghost var before := repository.tasks;
    AtomicTransitionKeepsTheId(before, id, target, reason, checkpoint, expectedVersion, now);
    var current := repository.Get(id);
    if current.Failure? {
      return current;
    }
    if expectedVersion.Some? && current.value.version != expectedVersion.value {
      return Failure(ConcurrentUpdate(id, expectedVersion.value, current.value.version));
    }
    var updated := current.value.TransitionTo(target, reason, checkpoint, now);
    assert updated == AtomicTransition(before, id, target, reason, checkpoint, expectedVersion, now);
    if updated.Failure? {
      return updated;
    }
    var stored := repository.Update(updated.value, current.value.version);
    assert stored.Success? && repository.tasks == Written(before, updated);
    r := match stored
      case Success(_) => updated
      case Failure(error) => Failure(error);
  }
}
