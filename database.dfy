/** The document store the services read and write: the users and tasks
    collections keyed by id, and the source of fresh ids. Every document in it
    passed its schema's validation when it was saved, and every task satisfies
    the lifecycle facts the task operations keep. */
module Store {
  import opened UserModel
  import opened TaskModel

  class Database {
    var users: map<UserId, User>
    var tasks: map<TaskId, Task>
    var nextId: nat

    ghost predicate Valid()
      reads this
    {
      && (forall id :: id in users ==> users[id].id == id && id < nextId && UserSchemaValid(users[id]))
      && (forall id :: id in tasks ==> tasks[id].id == id && id < nextId && TaskSchemaValid(tasks[id])
                                        && LifecycleOk(tasks[id]))
    }

    constructor ()
      ensures Valid()
      ensures users == map[] && tasks == map[] && nextId == 0
    {
      users, tasks, nextId := map[], map[], 0;
    }
  }

  /** The stored tasks with id below n, in id order and each once: the
      collection as a scan sees it. */
  function StoredTasks(tasks: map<TaskId, Task>, n: nat): (s: seq<Task>)
    requires forall id :: id in tasks ==> tasks[id].id == id
    ensures forall k :: 0 <= k < |s| ==> s[k] in tasks.Values && s[k].id < n
    ensures forall id :: id in tasks && id < n ==> tasks[id] in s
    ensures forall i, j :: 0 <= i < j < |s| ==> s[i].id < s[j].id
    decreases n
  {
    if n == 0 then []
    else
      var before := StoredTasks(tasks, n - 1);
      StoredTasksStep(tasks, n - 1, before);
      before + (if n - 1 in tasks then [tasks[n - 1]] else [])
  }

  /** One more id keeps the scan's facts: ordered by id, below the bound,
      stored, and missing no stored task. */
  lemma StoredTasksStep(tasks: map<TaskId, Task>, m: nat, before: seq<Task>)
    requires forall id :: id in tasks ==> tasks[id].id == id
    requires forall k :: 0 <= k < |before| ==> before[k] in tasks.Values && before[k].id < m
    requires forall id :: id in tasks && id < m ==> tasks[id] in before
    requires forall i, j :: 0 <= i < j < |before| ==> before[i].id < before[j].id
    ensures var s := before + (if m in tasks then [tasks[m]] else []);
      && (forall k :: 0 <= k < |s| ==> s[k] in tasks.Values && s[k].id < m + 1)
      && (forall id :: id in tasks && id < m + 1 ==> tasks[id] in s)
      && (forall i, j :: 0 <= i < j < |s| ==> s[i].id < s[j].id)
  {
    var s := before + (if m in tasks then [tasks[m]] else []);
    forall k | |before| <= k < |s| ensures s[k] == tasks[m] && s[k].id == m && s[k] in tasks.Values { }
    forall id | id in tasks && id < m + 1 ensures tasks[id] in s {
      if id < m {
        var k :| 0 <= k < |before| && before[k] == tasks[id];
        assert s[k] == before[k];
      } else {
        assert s[|before|] == tasks[m];
      }
    }
  }

  /** No task went back along Open -> InProgress -> Completed, and none disappeared. */
  ghost predicate StatusesForward(before: map<TaskId, Task>, after: map<TaskId, Task>) {
    forall id :: id in before ==> id in after && StatusRank(before[id].status) <= StatusRank(after[id].status)
  }
}
