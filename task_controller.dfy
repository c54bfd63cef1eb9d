/** Owner-scoped task CRUD (backend/controllers/task.controller.js) over a
    tasks collection. Every handler runs behind the session gate, so the
    caller's `req.userId` is given. */
module TaskController {
  import opened Base
  import opened JsText
  import opened TaskModel
  import opened Http

  // ---------------------------------------------------------------------
  // getTasks: the query

  /** The filter `{ userId, status?, priority? }`. */
  datatype Query = Query(userId: UserId, status: Option<string>, priority: Option<string>)

  /** `status` and `priority` join the filter only when truthy. */
  function BuildQuery(userId: UserId, status: Option<string>, priority: Option<string>): (q: Query)
    ensures q.userId == userId
    ensures q.status.Some? <==> Truthy(status)
    ensures q.status.Some? ==> q.status == status
    ensures q.priority.Some? <==> Truthy(priority)
    ensures q.priority.Some? ==> q.priority == priority
  {
    Query(userId,
          if Truthy(status) then status else None,
          if Truthy(priority) then priority else None)
  }

  /** A stored task matches the filter when it belongs to the caller and
      its enum fields equal the strings given. */
  predicate Matches(t: Task, q: Query)
  {
    && t.userId == q.userId
    && (q.status.Some? ==> t.status.Name() == q.status.value)
    && (q.priority.Some? ==> t.priority.Name() == q.priority.value)
  }

  /** `Task.find(query)`: the matching tasks, each as often as it is stored. */
  function Select(tasks: seq<Task>, q: Query): (r: seq<Task>)
    ensures forall i :: 0 <= i < |r| ==> Matches(r[i], q)
    ensures forall t :: multiset(r)[t] == if Matches(t, q) then multiset(tasks)[t] else 0
  {
    if tasks == [] then []
    else
      var rest := Select(tasks[1..], q);
      assert tasks == [tasks[0]] + tasks[1..];
      if Matches(tasks[0], q) then [tasks[0]] + rest else rest
  }

  // ---------------------------------------------------------------------
  // getTasks: the sort

  datatype SortKey = CreatedAt | PriorityField
  datatype Direction = Ascending | Descending
  datatype SortField = SortField(key: SortKey, dir: Direction)

  /** The `switch (sortBy)`: four known keys, newest first otherwise. Both
      priority sorts break ties newest first. */
  function SortOptions(sortBy: Option<string>): (fields: seq<SortField>)
    ensures |fields| >= 1 && fields[|fields| - 1] != SortField(PriorityField, Descending)
    ensures fields[|fields| - 1].key == CreatedAt
    ensures fields[0].key == PriorityField <==>
            sortBy == Some("priority_desc") || sortBy == Some("priority_asc")
    ensures fields[0].key == PriorityField ==> |fields| == 2 && fields[1] == SortField(CreatedAt, Descending)
    ensures fields[0].dir == Ascending <==> sortBy == Some("createdAt_asc") || sortBy == Some("priority_asc")
    ensures sortBy !in {Some("createdAt_asc"), Some("priority_desc"), Some("priority_asc")} ==>
            fields == [SortField(CreatedAt, Descending)]
  {
    match sortBy
    case Some("createdAt_desc") => [SortField(CreatedAt, Descending)]
    case Some("createdAt_asc") => [SortField(CreatedAt, Ascending)]
    case Some("priority_desc") => [SortField(PriorityField, Descending), SortField(CreatedAt, Descending)]
    case Some("priority_asc") => [SortField(PriorityField, Ascending), SortField(CreatedAt, Descending)]
    case _ => [SortField(CreatedAt, Descending)]
  }

  /** How priorities are compared: as the stored strings (what the database
      does with the schema's string field) or by their meaning. */
  datatype PriorityOrder = AsStoredString | ByRank

  /** The position of the stored string in code-unit order:
      "High" < "Low" < "Medium". */
  function StoredStringRank(p: Priority): (k: nat)
    ensures k < 3
  {
    match p
    case High => 0
    case Low => 1
    case Medium => 2
  }

  /** The order the names mean: Low < Medium < High. */
  function Rank(p: Priority): (k: nat)
    ensures k < 3
    ensures p == High ==> k == 2
    ensures p == Low ==> k == 0
  {
    match p
    case Low => 0
    case Medium => 1
    case High => 2
  }

  /** `StoredStringRank` is exactly the string comparison of the names. */
  lemma StoredStringRankIsStringOrder(p: Priority, q: Priority)
    ensures StoredStringRank(p) < StoredStringRank(q) <==> StringLess(p.Name(), q.Name())
  {
    assert StringLess("High", "Low") && StringLess("High", "Medium") && StringLess("Low", "Medium");
    assert !StringLess("Low", "High") && !StringLess("Medium", "High") && !StringLess("Medium", "Low");
    assert !StringLess("Low", "Low") && !StringLess("Medium", "Medium") && !StringLess("High", "High");
  }

  function PriorityKey(p: Priority, order: PriorityOrder): nat
  {
    match order
    case AsStoredString => StoredStringRank(p)
    case ByRank => Rank(p)
  }

  function FieldKey(t: Task, f: SortField, order: PriorityOrder): nat
  {
    match f.key
    case CreatedAt => t.createdAt
    case PriorityField => PriorityKey(t.priority, order)
  }

  /** `a` strictly before `b` on one sort field. */
  predicate Precedes(a: Task, b: Task, f: SortField, order: PriorityOrder)
  {
    match f.dir
    case Ascending => FieldKey(a, f, order) < FieldKey(b, f, order)
    case Descending => FieldKey(a, f, order) > FieldKey(b, f, order)
  }

  /** `a` may come before `b`: lexicographically on the sort fields. */
  predicate InOrder(a: Task, b: Task, fields: seq<SortField>, order: PriorityOrder)
    decreases |fields|
  {
    || fields == []
    || Precedes(a, b, fields[0], order)
    || (FieldKey(a, fields[0], order) == FieldKey(b, fields[0], order) && InOrder(a, b, fields[1..], order))
  }

  lemma {:induction false} InOrderTotal(a: Task, b: Task, fields: seq<SortField>, order: PriorityOrder)
    ensures InOrder(a, b, fields, order) || InOrder(b, a, fields, order)
    decreases |fields|
  {
    if fields != [] {
      InOrderTotal(a, b, fields[1..], order);
    }
  }

  lemma {:induction false} InOrderTransitive(a: Task, b: Task, c: Task, fields: seq<SortField>,
                                             order: PriorityOrder)
    requires InOrder(a, b, fields, order) && InOrder(b, c, fields, order)
    ensures InOrder(a, c, fields, order)
    decreases |fields|
  {
    if fields != [] && FieldKey(a, fields[0], order) == FieldKey(b, fields[0], order)
       && FieldKey(b, fields[0], order) == FieldKey(c, fields[0], order) {
      InOrderTransitive(a, b, c, fields[1..], order);
    }
  }

  /** Every task comes before every later one. */
  predicate Sorted(s: seq<Task>, fields: seq<SortField>, order: PriorityOrder)
  {
    forall i, j :: 0 <= i < j < |s| ==> InOrder(s[i], s[j], fields, order)
  }

  function InsertSorted(t: Task, s: seq<Task>, fields: seq<SortField>, order: PriorityOrder): (r: seq<Task>)
    ensures multiset(r) == multiset(s) + multiset{t}
    ensures |r| == |s| + 1
  {
    if s == [] then [t]
    else if InOrder(t, s[0], fields, order) then [t] + s
    else
      assert s == [s[0]] + s[1..];
      [s[0]] + InsertSorted(t, s[1..], fields, order)
  }

  lemma {:induction false} InsertSortedKeepsOrder(t: Task, s: seq<Task>, fields: seq<SortField>,
                                                  order: PriorityOrder)
    requires Sorted(s, fields, order)
    ensures Sorted(InsertSorted(t, s, fields, order), fields, order)
  {
    if s == [] {
    } else if InOrder(t, s[0], fields, order) {
      var r := [t] + s;
      forall i, j | 0 <= i < j < |r|
        ensures InOrder(r[i], r[j], fields, order)
      {
        if i == 0 && j > 1 {
          InOrderTransitive(t, s[0], s[j - 1], fields, order);
        }
      }
    } else {
      InOrderTotal(t, s[0], fields, order);
      var rest := InsertSorted(t, s[1..], fields, order);
      InsertSortedKeepsOrder(t, s[1..], fields, order);
      var r := [s[0]] + rest;
      forall j | 0 <= j < |rest|
        ensures InOrder(s[0], rest[j], fields, order)
      {
        assert rest[j] in multiset(rest);
        assert rest[j] == t || rest[j] in multiset(s[1..]);
        if rest[j] != t {
          var k :| 0 <= k < |s[1..]| && s[1..][k] == rest[j];
          assert s[k + 1] == rest[j];
        }
      }
      forall i, j | 0 <= i < j < |r|
        ensures InOrder(r[i], r[j], fields, order)
      {
        if i > 0 {
          assert r[i] == rest[i - 1] && r[j] == rest[j - 1];
        } else {
          assert r[j] == rest[j - 1];
        }
      }
    }
  }

  /** `.sort(sortOptions)`: a sorted permutation of its input. Tasks equal
      on every sort field keep their stored order. */
  function SortTasks(s: seq<Task>, fields: seq<SortField>, order: PriorityOrder): (r: seq<Task>)
    ensures multiset(r) == multiset(s)
    ensures Sorted(r, fields, order)
  {
    if s == [] then []
    else
      var rest := SortTasks(s[1..], fields, order);
      InsertSortedKeepsOrder(s[0], rest, fields, order);
      assert s == [s[0]] + s[1..];
      InsertSorted(s[0], rest, fields, order)
  }

  /** The list `getTasks` answers with, comparing priorities as `order` says. */
  function TaskListWith(tasks: seq<Task>, userId: UserId, status: Option<string>, priority: Option<string>,
                        sortBy: Option<string>, order: PriorityOrder): (r: seq<Task>)
    ensures forall i :: 0 <= i < |r| ==> r[i].userId == userId
    ensures forall t :: multiset(r)[t] ==
              if Matches(t, BuildQuery(userId, status, priority)) then multiset(tasks)[t] else 0
    ensures Sorted(r, SortOptions(sortBy), order)
  {
    var r := SortTasks(Select(tasks, BuildQuery(userId, status, priority)), SortOptions(sortBy), order);
    forall i | 0 <= i < |r|
      ensures r[i].userId == userId
    {
      assert r[i] in multiset(r);
    }
    r
  }

  /** The list as the code computes it: priorities compared as strings. */
  function TaskListAsWritten(tasks: seq<Task>, userId: UserId, status: Option<string>, priority: Option<string>,
                             sortBy: Option<string>): (r: seq<Task>)
    ensures Sorted(r, SortOptions(sortBy), AsStoredString)
    ensures forall i :: 0 <= i < |r| ==> r[i].userId == userId
  {
    TaskListWith(tasks, userId, status, priority, sortBy, AsStoredString)
  }

  /** The list the sort labels promise ("Priority (High to Low)"):
      priorities compared by meaning. */
  function TaskList(tasks: seq<Task>, userId: UserId, status: Option<string>, priority: Option<string>,
                    sortBy: Option<string>): (r: seq<Task>)
    ensures Sorted(r, SortOptions(sortBy), ByRank)
    ensures forall i :: 0 <= i < |r| ==> r[i].userId == userId
  {
    TaskListWith(tasks, userId, status, priority, sortBy, ByRank)
  }

  /** With string comparison, "priority_desc" puts a Medium task before a
      High one. */
  lemma PriorityDescAsWrittenPutsMediumFirst()
    ensures var high := Task("000000000000000000000001", 7, "a", "", NotStarted, High, 0, 0);
            var medium := Task("000000000000000000000002", 7, "b", "", NotStarted, Medium, 0, 0);
            TaskListAsWritten([high, medium], 7, None, None, Some("priority_desc")) == [medium, high]
  {
    var high := Task("000000000000000000000001", 7, "a", "", NotStarted, High, 0, 0);
    var medium := Task("000000000000000000000002", 7, "b", "", NotStarted, Medium, 0, 0);
    var q := BuildQuery(7, None, None);
    assert Select([high, medium], q) == [high, medium] by {
      assert [high, medium][1..] == [medium];
      assert Select([medium], q) == [medium] by { assert [medium][1..] == []; }
    }
    var fields := SortOptions(Some("priority_desc"));
    assert SortTasks([medium], fields, AsStoredString) == [medium] by { assert [medium][1..] == []; }
    assert !InOrder(high, medium, fields, AsStoredString);
    assert [high, medium][1..] == [medium];
    assert [medium][1..] == [];
  }

  /** By meaning, each priority sort is monotone in the priority and breaks
      ties newest first; the date sorts are monotone in `createdAt`. */
  lemma {:induction false} TaskListOrder(tasks: seq<Task>, userId: UserId, status: Option<string>,
                                         priority: Option<string>, sortBy: Option<string>, i: nat, j: nat)
    requires i < j < |TaskList(tasks, userId, status, priority, sortBy)|
    ensures var r := TaskList(tasks, userId, status, priority, sortBy);
            && (sortBy == Some("priority_desc") ==> Rank(r[i].priority) >= Rank(r[j].priority))
            && (sortBy == Some("priority_asc") ==> Rank(r[i].priority) <= Rank(r[j].priority))
            && (sortBy == Some("priority_desc") || sortBy == Some("priority_asc") ==>
                 r[i].priority == r[j].priority ==> r[i].createdAt >= r[j].createdAt)
            && (sortBy == Some("createdAt_asc") ==> r[i].createdAt <= r[j].createdAt)
            && (sortBy !in {Some("createdAt_asc"), Some("priority_desc"), Some("priority_asc")} ==>
                 r[i].createdAt >= r[j].createdAt)
  {
    var r := TaskList(tasks, userId, status, priority, sortBy);
    var fields := SortOptions(sortBy);
    assert InOrder(r[i], r[j], fields, ByRank);
    if |fields| == 2 && r[i].priority == r[j].priority {
      assert InOrder(r[i], r[j], fields[1..], ByRank);
    }
  }

  // ---------------------------------------------------------------------
  // The tasks collection

  predicate UniqueIds(tasks: seq<Task>)
  {
    forall i, j :: 0 <= i < j < |tasks| ==> tasks[i].id != tasks[j].id
  }

  /** Ids are unique and every stored task satisfies the schema. */
  predicate StoreInvariant(tasks: seq<Task>)
  {
    (forall i :: 0 <= i < |tasks| ==> Conforms(tasks[i])) && UniqueIds(tasks)
  }

  /** `Task.findById(id)`: the stored task with that id. */
  function FindTask(tasks: seq<Task>, id: TaskId): (r: Option<nat>)
    ensures r.Some? ==> r.value < |tasks| && tasks[r.value].id == id
    ensures r.None? <==> forall k :: 0 <= k < |tasks| ==> tasks[k].id != id
  {
    if tasks == [] then None
    else if tasks[0].id == id then Some(0)
    else match FindTask(tasks[1..], id)
      case None => None
      case Some(k) => Some(k + 1)
  }

  /** Removing the task at `k` from a collection with unique ids removes
      exactly the task with its id, keeping the others in order. */
  lemma RemoveAtRemovesExactlyThatTask(tasks: seq<Task>, k: nat)
    requires k < |tasks| && UniqueIds(tasks)
    ensures |tasks[..k] + tasks[k + 1..]| == |tasks| - 1
    ensures forall t :: t in tasks[..k] + tasks[k + 1..] <==> t in tasks && t.id != tasks[k].id
  {
    var r := tasks[..k] + tasks[k + 1..];
    forall t | t in r
      ensures t in tasks && t.id != tasks[k].id
    {
      var m :| 0 <= m < |r| && r[m] == t;
      if m < k { assert r[m] == tasks[m]; } else { assert r[m] == tasks[m + 1]; }
    }
    forall t | t in tasks && t.id != tasks[k].id
      ensures t in r
    {
      var m :| 0 <= m < |tasks| && tasks[m] == t;
      if m < k { assert r[m] == t; } else { assert r[m - 1] == t; }
    }
  }

  /** Removing a task keeps the collection invariant. */
  lemma RemoveAtKeepsInvariant(tasks: seq<Task>, k: nat)
    requires k < |tasks| && StoreInvariant(tasks)
    ensures StoreInvariant(tasks[..k] + tasks[k + 1..])
  {
    var r := tasks[..k] + tasks[k + 1..];
    assert forall a :: 0 <= a < |r| ==> r[a] == tasks[if a < k then a else a + 1];
  }

  class TaskCollection {
    var tasks: seq<Task>

    ghost predicate Valid()
      reads this
    {
      StoreInvariant(tasks)
    }

    constructor ()
      ensures Valid() && tasks == []
    {
      tasks := [];
    }

    /** `task.save()` of a new document. */
    method Insert(t: Task)
      requires Valid() && Conforms(t)
      requires forall k :: 0 <= k < |tasks| ==> tasks[k].id != t.id
      modifies this
      ensures Valid()
      ensures tasks == old(tasks) + [t]
    {
      tasks := tasks + [t];
    }

    /** `task.save()` of the loaded document at `k`. */
    method Save(k: nat, t: Task, now: Millis)
      requires Valid() && k < |tasks| && t.id == tasks[k].id && Conforms(t)
      modifies this
      ensures Valid()
      ensures tasks == old(tasks)[k := Saved(old(tasks)[k], t, now)]
    {
      tasks := tasks[k := Saved(tasks[k], t, now)];
    }

    /** `task.deleteOne()` of the loaded document at `k`. */
    method Remove(k: nat)
      requires Valid() && k < |tasks|
      modifies this
      ensures Valid()
      ensures tasks == old(tasks)[..k] + old(tasks)[k + 1..]
    {
      RemoveAtKeepsInvariant(tasks, k);
      tasks := tasks[..k] + tasks[k + 1..];
    }
  }

  /** The document `save` stores: the same timestamps rule as
      `AuthController.Saved` for users, on a task: `updatedAt` moves to the
      save time only when some field was modified. */
  function Saved(stored: Task, t: Task, now: Millis): (v: Task)
    ensures v.(updatedAt := t.updatedAt) == t
    ensures v.updatedAt == if t == stored then stored.updatedAt else now
  {
    if t == stored then t else t.(updatedAt := now)
  }

  // ---------------------------------------------------------------------
  // Finding the addressed task: 400, then 404, then 403

  function AsciiLowerCase(c: char): (d: char)
    ensures IsAsciiUpper(c) ==> d as int == c as int + 32
    ensures !IsAsciiUpper(c) ==> d == c
  {
    if IsAsciiUpper(c) then (c as int + 32) as char else c
  }

  /** `ObjectId.isValid(id)` for the 24-digit form: hex digits of either
      case. Every canonical id is valid. */
  function IsValidObjectId(id: string): (valid: bool)
    ensures valid <==> |id| == 24 &&
                       forall i :: 0 <= i < |id| ==> IsAsciiDigit(id[i]) || 'a' <= id[i] <= 'f' || 'A' <= id[i] <= 'F'
    ensures IsTaskId(id) ==> valid
  {
    |id| == 24 && forall i :: 0 <= i < |id| ==> IsLowerHexDigit(AsciiLowerCase(id[i]))
  }

  /** The canonical (lower-case) form an id is cast to before the lookup. */
  function CanonicalId(id: string): (c: TaskId)
    requires IsValidObjectId(id)
    ensures IsTaskId(c)
    ensures forall i :: 0 <= i < |id| ==> c[i] == AsciiLowerCase(id[i])
  {
    seq(|id|, i requires 0 <= i < |id| => AsciiLowerCase(id[i]))
  }

  datatype Lookup = InvalidId | NotFound | NotOwner(index: nat) | Owned(index: nat)

  /** The checks `updateTask` and `deleteTask` share, in their order. */
  function Locate(tasks: seq<Task>, id: string, userId: UserId): (r: Lookup)
    ensures r == InvalidId <==> !IsValidObjectId(id)
    ensures r == NotFound <==> IsValidObjectId(id) &&
                               forall k :: 0 <= k < |tasks| ==> tasks[k].id != CanonicalId(id)
    ensures (r.NotOwner? || r.Owned?) ==>
              IsValidObjectId(id) && r.index < |tasks| && tasks[r.index].id == CanonicalId(id)
    ensures r.NotOwner? ==> tasks[r.index].userId != userId
    ensures r.Owned? ==> tasks[r.index].userId == userId
  {
    if !IsValidObjectId(id) then InvalidId
    else match FindTask(tasks, CanonicalId(id))
      case None => NotFound
      case Some(k) => if tasks[k].userId != userId then NotOwner(k) else Owned(k)
  }

  /** The truthy-overwrite merge of `updateTask`: a field is replaced only
      by a truthy value (a string is trimmed when set), and the save fails
      (`None`) when the title would be blank or an enum value is unknown. */
  function Updated(t: Task, title: Option<string>, description: Option<string>,
                   status: Option<string>, priority: Option<string>): (r: Option<Task>)
    requires Conforms(t)
    ensures r.Some? <==> (Truthy(title) ==> Trim(title.value) != "") &&
                         (Truthy(status) ==> ParseStatus(status.value).Some?) &&
                         (Truthy(priority) ==> ParsePriority(priority.value).Some?)
    ensures r.Some? ==> Conforms(r.value)
    ensures r.Some? ==> r.value.id == t.id && r.value.userId == t.userId &&
                        r.value.createdAt == t.createdAt && r.value.updatedAt == t.updatedAt
    ensures r.Some? ==> r.value.title == if Truthy(title) then Trim(title.value) else t.title
    ensures r.Some? ==> r.value.description == if Truthy(description) then Trim(description.value) else t.description
    ensures r.Some? && !Truthy(status) ==> r.value.status == t.status
    ensures r.Some? && Truthy(status) ==> r.value.status.Name() == status.value
    ensures r.Some? && !Truthy(priority) ==> r.value.priority == t.priority
    ensures r.Some? && Truthy(priority) ==> r.value.priority.Name() == priority.value
  {
    var newTitle := if Truthy(title) then Trim(title.value) else t.title;
    var newDescription := if Truthy(description) then Trim(description.value) else t.description;
    var newStatus := if Truthy(status) then ParseStatus(status.value) else Some(t.status);
    var newPriority := if Truthy(priority) then ParsePriority(priority.value) else Some(t.priority);
    if newTitle == "" || newStatus.None? || newPriority.None? then None
    else
      Some(t.(title := newTitle, description := newDescription,
              status := newStatus.value, priority := newPriority.value))
  }

  /** An update with only falsy fields rewrites nothing, so the save
      leaves the document as it was, `updatedAt` included. */
  lemma FalsyUpdateChangesNothing(t: Task, now: Millis)
    requires Conforms(t)
    ensures Updated(t, None, Some(""), None, Some("")) == Some(t)
    ensures Saved(t, t, now) == t
  {
  }

  // ---------------------------------------------------------------------
  // The handlers

  const FETCH_ERROR := "Server error while fetching tasks."
  const TITLE_REQUIRED := "Title is required."
  const CREATE_ERROR := "Server error while creating task."
  const INVALID_ID := "Invalid task ID."
  const TASK_NOT_FOUND := "Task not found."
  const UPDATE_FORBIDDEN := "User not authorized to update this task."
  const UPDATE_ERROR := "Server error while updating task."
  const DELETE_FORBIDDEN := "User not authorized to delete this task."
  const DELETED := "Task deleted successfully."

  /** GET /api/tasks, as written: priorities are sorted as stored strings. */
  method GetTasks(store: TaskCollection, res: Response, userId: UserId, status: Option<string>,
                  priority: Option<string>, sortBy: Option<string>)
    modifies res
    ensures res.cookies == old(res.cookies)
    ensures res.status == 200 &&
            res.body == Some(Tasks(TaskListAsWritten(store.tasks, userId, status, priority, sortBy)))
  {
    res.Send(200, Tasks(TaskListAsWritten(store.tasks, userId, status, priority, sortBy)));
  }

  /** POST /api/tasks. The id the database assigns is `freshId`. */
  method CreateTask(store: TaskCollection, res: Response, userId: UserId, title: Option<string>,
                    description: Option<string>, status: Option<string>, priority: Option<string>,
                    freshId: TaskId, now: Millis)
    requires store.Valid()
    requires IsTaskId(freshId) && forall k :: 0 <= k < |store.tasks| ==> store.tasks[k].id != freshId
    modifies store, res
    ensures store.Valid() && res.cookies == old(res.cookies)
    ensures !Truthy(title) ==>
              store.tasks == old(store.tasks) && res.status == 400 && res.body == Some(Message(TITLE_REQUIRED))
    ensures Truthy(title) && BuildTask(freshId, userId, title.value, description, status, priority, now).None? ==>
              store.tasks == old(store.tasks) && res.status == 500 && res.body == Some(Message(CREATE_ERROR))
    ensures Truthy(title) && BuildTask(freshId, userId, title.value, description, status, priority, now).Some? ==>
              var t := BuildTask(freshId, userId, title.value, description, status, priority, now).value;
              && t.userId == userId
              && store.tasks == old(store.tasks) + [t]
              && res.status == 201 && res.body == Some(OneTask(t))
  {
    if !Truthy(title) {
      res.Send(400, Message(TITLE_REQUIRED));
      return;
    }
    var task := BuildTask(freshId, userId, title.value, description, status, priority, now);
    if task.None? {
      res.Send(500, Message(CREATE_ERROR));
      return;
    }
    store.Insert(task.value);
    res.Send(201, OneTask(task.value));
  }

  /** PUT /api/tasks/:id. */
  method UpdateTask(store: TaskCollection, res: Response, userId: UserId, id: string,
                    title: Option<string>, description: Option<string>, status: Option<string>,
                    priority: Option<string>, now: Millis)
    requires store.Valid()
    modifies store, res
    ensures store.Valid() && res.cookies == old(res.cookies)
    ensures Locate(old(store.tasks), id, userId) == InvalidId ==>
              store.tasks == old(store.tasks) && res.status == 400 && res.body == Some(Message(INVALID_ID))
    ensures Locate(old(store.tasks), id, userId) == NotFound ==>
              store.tasks == old(store.tasks) && res.status == 404 && res.body == Some(Message(TASK_NOT_FOUND))
    ensures Locate(old(store.tasks), id, userId).NotOwner? ==>
              store.tasks == old(store.tasks) && res.status == 403 && res.body == Some(Message(UPDATE_FORBIDDEN))
    ensures Locate(old(store.tasks), id, userId).Owned? ==>
              var k := Locate(old(store.tasks), id, userId).index;
              var merged := Updated(old(store.tasks)[k], title, description, status, priority);
              && (merged.None? ==> store.tasks == old(store.tasks) &&
                                   res.status == 500 && res.body == Some(Message(UPDATE_ERROR)))
              && (merged.Some? ==> store.tasks == old(store.tasks)[k := Saved(old(store.tasks)[k], merged.value, now)] &&
                                   res.status == 200 && res.body == Some(OneTask(store.tasks[k])))
  {
    var found := Locate(store.tasks, id, userId);
    match found
    case InvalidId =>
      res.Send(400, Message(INVALID_ID));
    case NotFound =>
      res.Send(404, Message(TASK_NOT_FOUND));
    case NotOwner(_) =>
      res.Send(403, Message(UPDATE_FORBIDDEN));
    case Owned(k) =>
      var merged := Updated(store.tasks[k], title, description, status, priority);
      if merged.None? {
        res.Send(500, Message(UPDATE_ERROR));
      } else {
        store.Save(k, merged.value, now);
        res.Send(200, OneTask(store.tasks[k]));
      }
  }

  /** DELETE /api/tasks/:id. */
  method DeleteTask(store: TaskCollection, res: Response, userId: UserId, id: string)
    requires store.Valid()
    modifies store, res
    ensures store.Valid() && res.cookies == old(res.cookies)
    ensures Locate(old(store.tasks), id, userId) == InvalidId ==>
              store.tasks == old(store.tasks) && res.status == 400 && res.body == Some(Message(INVALID_ID))
    ensures Locate(old(store.tasks), id, userId) == NotFound ==>
              store.tasks == old(store.tasks) && res.status == 404 && res.body == Some(Message(TASK_NOT_FOUND))
    ensures Locate(old(store.tasks), id, userId).NotOwner? ==>
              store.tasks == old(store.tasks) && res.status == 403 && res.body == Some(Message(DELETE_FORBIDDEN))
    ensures Locate(old(store.tasks), id, userId).Owned? ==>
              var k := Locate(old(store.tasks), id, userId).index;
              && store.tasks == old(store.tasks)[..k] + old(store.tasks)[k + 1..]
              && (forall t :: t in store.tasks <==> t in old(store.tasks) && t.id != CanonicalId(id))
              && res.status == 200 && res.body == Some(Message(DELETED))
  {
    var found := Locate(store.tasks, id, userId);
    match found
    case InvalidId =>
      res.Send(400, Message(INVALID_ID));
    case NotFound =>
      res.Send(404, Message(TASK_NOT_FOUND));
    case NotOwner(_) =>
      res.Send(403, Message(DELETE_FORBIDDEN));
    case Owned(k) =>
      RemoveAtRemovesExactlyThatTask(store.tasks, k);
      store.Remove(k);
      res.Send(200, Message(DELETED));
  }
}
