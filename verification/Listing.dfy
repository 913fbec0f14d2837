/** The list query: newest first, ties broken by id, cut to a limit
    (tasks/repository.py `list_tasks`, and the SQL in tasks/postgres.py). */
module Listing {
  import opened Wrappers
  import opened Tasks

  type Store = map<TaskId, AgentTask>

  predicate Matches(status: Option<TaskStatus>, t: AgentTask) {
    status.None? || t.status == status.value
  }

  // The sort key (created_at, id), compared in descending order.
  predicate Newer(a: AgentTask, b: AgentTask) {
    a.createdAt > b.createdAt || (a.createdAt == b.createdAt && a.id > b.id)
  }

  ghost predicate Descending(ts: seq<AgentTask>) {
    forall i, j | 0 <= i < j < |ts| :: Newer(ts[i], ts[j])
  }

  function Matching(values: seq<AgentTask>, status: Option<TaskStatus>): seq<AgentTask> {
    if values == [] then []
    else (if Matches(status, values[0]) then [values[0]] else []) + Matching(values[1..], status)
  }

  function Inserted(t: AgentTask, ts: seq<AgentTask>): seq<AgentTask> {
    if ts == [] || Newer(t, ts[0]) then [t] + ts else [ts[0]] + Inserted(t, ts[1..])
  }

  function Sorted(ts: seq<AgentTask>): seq<AgentTask> {
    if ts == [] then [] else Inserted(ts[0], Sorted(ts[1..]))
  }

  // `sorted(matching, key=..., reverse=True)[:limit]` over the dictionary's values.
  function ListOf(values: seq<AgentTask>, status: Option<TaskStatus>, limit: nat): seq<AgentTask> {
    var sorted := Sorted(Matching(values, status));
    if |sorted| <= limit then sorted else sorted[..limit]
  }

  // What the query means, with no mention of how it is computed: the `limit`
  // greatest matching tasks of the store, in strictly descending order.
  ghost predicate IsListing(store: Store, status: Option<TaskStatus>, limit: nat, answer: seq<AgentTask>) {
    && Descending(answer)
    && |answer| <= limit
    && (forall i | 0 <= i < |answer| :: InStore(store, answer[i]) && Matches(status, answer[i]))
    && (forall t | InStore(store, t) && Matches(status, t) && t !in answer ::
          |answer| == limit && forall i | 0 <= i < |answer| :: Newer(answer[i], t))
  }

  predicate InStore(store: Store, t: AgentTask) {
    t.id in store && store[t.id] == t
  }

  // The values of a dictionary in some order, each once.
  ghost predicate Enumerates(values: seq<AgentTask>, store: Store) {
    && (forall t :: t in values <==> InStore(store, t))
    && DistinctIds(values)
  }

  ghost predicate DistinctIds(values: seq<AgentTask>) {
    forall i, j | 0 <= i < j < |values| :: values[i].id != values[j].id
  }

  // --- Two listings of one store are the same sequence ---------------------------

  // Once the first k entries agree, b's next entry is not behind a's.
  lemma NotBehind(store: Store, status: Option<TaskStatus>, limit: nat, a: seq<AgentTask>, b: seq<AgentTask>, k: nat)
    requires IsListing(store, status, limit, a) && IsListing(store, status, limit, b)
    requires k < |a|
    requires forall j | 0 <= j < k :: j < |b| && a[j] == b[j]
    ensures k < |b| && (a[k] == b[k] || Newer(b[k], a[k]))
  {
    assert InStore(store, a[k]) && Matches(status, a[k]);
    assert forall j | 0 <= j < k :: Newer(a[j], a[k]);
    if a[k] in b {
      var j :| 0 <= j < |b| && b[j] == a[k];
      assert j >= k;
    }
  }

  lemma {:induction false} AgreeUpTo(
      store: Store, status: Option<TaskStatus>, limit: nat, a: seq<AgentTask>, b: seq<AgentTask>, n: nat)
    requires IsListing(store, status, limit, a) && IsListing(store, status, limit, b)
    requires n <= |a|
    ensures n <= |b| && forall j | 0 <= j < n :: a[j] == b[j]
  {
    if n > 0 {
      AgreeUpTo(store, status, limit, a, b, n - 1);
      NotBehind(store, status, limit, a, b, n - 1);
      NotBehind(store, status, limit, b, a, n - 1);
    }
  }

  // Whoever answers the query, and however the store was filled, the answer is the same.
  lemma ListingIsUnique(store: Store, status: Option<TaskStatus>, limit: nat, a: seq<AgentTask>, b: seq<AgentTask>)
    requires IsListing(store, status, limit, a) && IsListing(store, status, limit, b)
    ensures a == b
  {
    AgreeUpTo(store, status, limit, a, b, |a|);
    AgreeUpTo(store, status, limit, b, a, |b|);
  }

  // --- The computed list is a listing ----------------------------------------------

  lemma {:induction false} MatchingSelects(values: seq<AgentTask>, status: Option<TaskStatus>)
    requires DistinctIds(values)
    ensures forall t :: t in Matching(values, status) <==> t in values && Matches(status, t)
    ensures DistinctIds(Matching(values, status))
  {
    if values != [] {
      MatchingSelects(values[1..], status);
      var rest := Matching(values[1..], status);
      forall t | t in rest
        ensures t.id != values[0].id
      {
        assert t in values[1..];
        var k :| 0 <= k < |values[1..]| && values[1..][k] == t;
        assert values[k + 1] == t;
      }
      assert values == [values[0]] + values[1..];
    }
  }

  lemma {:induction false} InsertedIsDescending(t: AgentTask, ts: seq<AgentTask>)
    requires Descending(ts)
    requires forall i | 0 <= i < |ts| :: ts[i].id != t.id
    ensures forall u :: u in Inserted(t, ts) <==> u == t || u in ts
    ensures Descending(Inserted(t, ts))
  {
    if ts != [] && !Newer(t, ts[0]) {
      InsertedIsDescending(t, ts[1..]);
      var rest := Inserted(t, ts[1..]);
      assert ts == [ts[0]] + ts[1..];
      forall u | u in rest
        ensures Newer(ts[0], u)
      {
        if u != t {
          var k :| 0 <= k < |ts[1..]| && ts[1..][k] == u;
          assert ts[k + 1] == u;
        }
      }
      assert forall j | 0 <= j < |rest| :: rest[j] in rest;
    }
  }

  lemma {:induction false} SortedIsDescending(ts: seq<AgentTask>)
    requires DistinctIds(ts)
    ensures forall u :: u in Sorted(ts) <==> u in ts
    ensures Descending(Sorted(ts))
  {
    if ts != [] {
      var rest := Sorted(ts[1..]);
      SortedIsDescending(ts[1..]);
      forall i | 0 <= i < |rest|
        ensures rest[i].id != ts[0].id
      {
        assert rest[i] in ts[1..];
        var k :| 0 <= k < |ts[1..]| && ts[1..][k] == rest[i];
        assert ts[k + 1] == rest[i];
      }
      InsertedIsDescending(ts[0], rest);
      assert ts == [ts[0]] + ts[1..];
    }
  }

  lemma ListOfIsListing(store: Store, values: seq<AgentTask>, status: Option<TaskStatus>, limit: nat)
    requires Enumerates(values, store)
    ensures IsListing(store, status, limit, ListOf(values, status, limit))
  {
    MatchingSelects(values, status);
    SortedIsDescending(Matching(values, status));
    var sorted := Sorted(Matching(values, status));
    var answer := ListOf(values, status, limit);
    forall i | 0 <= i < |answer|
      ensures InStore(store, answer[i]) && Matches(status, answer[i])
    {
      assert sorted[i] in sorted;
    }
    forall t | InStore(store, t) && Matches(status, t) && t !in answer
      ensures |answer| == limit && forall i | 0 <= i < |answer| :: Newer(answer[i], t)
    {
      assert t in sorted;
      var k :| 0 <= k < |sorted| && sorted[k] == t;
      assert forall i | 0 <= i < |answer| :: answer[i] == sorted[i];
    }
  }

  // Insertion order and updates are invisible: any two enumerations list the same.
  lemma ListOfIgnoresOrder(
      store: Store, values: seq<AgentTask>, others: seq<AgentTask>, status: Option<TaskStatus>, limit: nat)
    requires Enumerates(values, store) && Enumerates(others, store)
    ensures ListOf(values, status, limit) == ListOf(others, status, limit)
  {
    ListOfIsListing(store, values, status, limit);
    ListOfIsListing(store, others, status, limit);
    ListingIsUnique(store, status, limit, ListOf(values, status, limit), ListOf(others, status, limit));
  }
}
