/** The client-side task list (frontend/src/store/taskStore.js): a store
    whose fields each action replaces through `set`, with the new lists
    computed from the old ones. */
module TaskStore {
  import opened Base
  import opened TaskModel

  /** What `set` publishes: one snapshot of the store's state. */
  datatype Snapshot = Snapshot(tasks: seq<Task>, isLoading: bool, error: Option<string>)

  const FETCH_FAILED := "Failed to fetch tasks."

  /** `tasks.map(task => task._id === id ? updated : task)`. */
  function ReplacedById(tasks: seq<Task>, id: string, updated: Task): (r: seq<Task>)
    ensures |r| == |tasks|
    ensures forall i :: 0 <= i < |tasks| && tasks[i].id == id ==> r[i] == updated
    ensures forall i :: 0 <= i < |tasks| && tasks[i].id != id ==> r[i] == tasks[i]
  {
    if tasks == [] then []
    else [if tasks[0].id == id then updated else tasks[0]] + ReplacedById(tasks[1..], id, updated)
  }

  /** `tasks.filter(task => task._id !== id)`. */
  function RemovedById(tasks: seq<Task>, id: string): (r: seq<Task>)
    ensures |r| <= |tasks|
    ensures forall t :: t in r <==> t in tasks && t.id != id
  {
    if tasks == [] then []
    else
      assert tasks == [tasks[0]] + tasks[1..];
      (if tasks[0].id != id then [tasks[0]] else []) + RemovedById(tasks[1..], id)
  }

  /** The filter keeps the order of what it keeps: filtering a
      concatenation filters each part. */
  lemma {:induction false} RemovedByIdKeepsOrder(a: seq<Task>, b: seq<Task>, id: string)
    ensures RemovedById(a + b, id) == RemovedById(a, id) + RemovedById(b, id)
  {
    if a == [] {
      assert a + b == b;
    } else {
      assert (a + b)[0] == a[0] && (a + b)[1..] == a[1..] + b;
      RemovedByIdKeepsOrder(a[1..], b, id);
    }
  }

  /** Deleting an id no task has, or replacing it, leaves the list as it is. */
  lemma {:induction false} AbsentIdChangesNothing(tasks: seq<Task>, id: string, updated: Task)
    requires forall i :: 0 <= i < |tasks| ==> tasks[i].id != id
    ensures RemovedById(tasks, id) == tasks
    ensures ReplacedById(tasks, id, updated) == tasks
  {
    if tasks != [] {
      AbsentIdChangesNothing(tasks[1..], id, updated);
    }
  }

  /** Replacing by id with a task that keeps the id is the same as doing
      it twice, and no deleted id survives a delete. */
  lemma {:induction false} ReplaceAndRemoveSettle(tasks: seq<Task>, id: string, updated: Task)
    requires updated.id == id
    ensures ReplacedById(ReplacedById(tasks, id, updated), id, updated) == ReplacedById(tasks, id, updated)
    ensures RemovedById(RemovedById(tasks, id), id) == RemovedById(tasks, id)
  {
    var once := RemovedById(tasks, id);
    forall i | 0 <= i < |once|
      ensures once[i].id != id
    {
      assert once[i] in once;
    }
    AbsentIdChangesNothing(once, id, updated);
  }

  class TaskStore {
    var tasks: seq<Task>
    var isLoading: bool
    var error: Option<string>
    /** Every state published by `set`, oldest first. */
    ghost var published: seq<Snapshot>

    function State(): Snapshot
      reads this
    {
      Snapshot(tasks, isLoading, error)
    }

    constructor ()
      ensures tasks == [] && !isLoading && error == None && published == []
    {
      tasks := [];
      isLoading := false;
      error := None;
      published := [];
    }

    /** `fetchTasks(filters)` with the request ending as `outcome`. It first
        publishes the loading state, then the result; a failure keeps the
        list it had. */
    method FetchTasks(outcome: Outcome<seq<Task>>)
      modifies this
      ensures |published| == |old(published)| + 2
      ensures published[..|old(published)|] == old(published)
      ensures published[|old(published)|] == Snapshot(old(tasks), true, None)
      ensures outcome.Ok? ==> tasks == outcome.data && !isLoading && error == None
      ensures outcome.Failed? ==> tasks == old(tasks) && !isLoading &&
                                  error == Some(OrElse(outcome.serverMessage, FETCH_FAILED))
      ensures published[|published| - 1] == State()
    {
      isLoading, error := true, None;
      published := published + [State()];
      if outcome.Ok? {
        tasks, isLoading := outcome.data, false;
      } else {
        error, isLoading := Some(OrElse(outcome.serverMessage, FETCH_FAILED)), false;
      }
      published := published + [State()];
    }

    /** `addTask(taskData)`: the created task goes first, the rest keep
        their order; a failure changes nothing. */
    method AddTask(outcome: Outcome<Task>)
      modifies this
      ensures outcome.Ok? ==> tasks == [outcome.data] + old(tasks) && published == old(published) + [State()]
      ensures outcome.Failed? ==> tasks == old(tasks) && published == old(published)
      ensures isLoading == old(isLoading) && error == old(error)
    {
      if outcome.Ok? {
        tasks := [outcome.data] + tasks;
        published := published + [State()];
      }
    }

    /** `updateTask(id, updateData)`: every task with that `_id` becomes
        the server's answer. */
    method UpdateTask(id: string, outcome: Outcome<Task>)
      modifies this
      ensures outcome.Ok? ==> tasks == ReplacedById(old(tasks), id, outcome.data) &&
                              published == old(published) + [State()]
      ensures outcome.Failed? ==> tasks == old(tasks) && published == old(published)
      ensures isLoading == old(isLoading) && error == old(error)
    {
      if outcome.Ok? {
        tasks := ReplacedById(tasks, id, outcome.data);
        published := published + [State()];
      }
    }

    /** `deleteTask(id)`: every task with that `_id` is dropped. */
    method DeleteTask(id: string, outcome: Outcome<()>)
      modifies this
      ensures outcome.Ok? ==> tasks == RemovedById(old(tasks), id) && published == old(published) + [State()]
      ensures outcome.Failed? ==> tasks == old(tasks) && published == old(published)
      ensures isLoading == old(isLoading) && error == old(error)
    {
      if outcome.Ok? {
        tasks := RemovedById(tasks, id);
        published := published + [State()];
      }
    }
  }
}
