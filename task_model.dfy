/** The task document of the `Task` schema (backend/models/task.model.js). */
module TaskModel {
  import opened Base
  import opened JsText

  /** An ObjectId in its canonical form: 24 lower-case hexadecimal digits. */
  type TaskId = string

  datatype Status = NotStarted | InProgress | Completed {
    /** The string the enum stores. */
    function Name(): string
    {
      match this
      case NotStarted => "Not Started"
      case InProgress => "In Progress"
      case Completed => "Completed"
    }
  }

  datatype Priority = Low | Medium | High {
    function Name(): string
    {
      match this
      case Low => "Low"
      case Medium => "Medium"
      case High => "High"
    }
  }

  /** The status enum check: only the three declared strings are accepted. */
  function ParseStatus(s: string): (r: Option<Status>)
    ensures r.Some? ==> r.value.Name() == s
    ensures r.None? ==> forall st: Status :: st.Name() != s
  {
    if s == "Not Started" then Some(NotStarted)
    else if s == "In Progress" then Some(InProgress)
    else if s == "Completed" then Some(Completed)
    else None
  }

  /** The priority enum check. */
  function ParsePriority(s: string): (r: Option<Priority>)
    ensures r.Some? ==> r.value.Name() == s
    ensures r.None? ==> forall p: Priority :: p.Name() != s
  {
    if s == "Low" then Some(Low)
    else if s == "Medium" then Some(Medium)
    else if s == "High" then Some(High)
    else None
  }

  /** Each enum value is accepted back from the string it stores. */
  lemma EnumNamesRoundTrip(st: Status, p: Priority)
    ensures ParseStatus(st.Name()) == Some(st)
    ensures ParsePriority(p.Name()) == Some(p)
  {
  }

  const DEFAULT_STATUS: Status := NotStarted
  const DEFAULT_PRIORITY: Priority := Medium

  datatype Task = Task(
    id: TaskId,
    userId: UserId,
    title: string,
    description: string,
    status: Status,
    priority: Priority,
    createdAt: Millis,
    updatedAt: Millis)

  predicate IsTaskId(s: string)
  {
    |s| == 24 && forall i :: 0 <= i < |s| ==> IsLowerHexDigit(s[i])
  }

  /** What the schema guarantees of a stored task: `title` is required and
      trimmed, `description` is trimmed; the enums hold by their types. */
  predicate Conforms(t: Task)
  {
    IsTaskId(t.id) && t.title != "" && IsTrimmed(t.title) && IsTrimmed(t.description)
  }

  /** The outcome of `new Task({...}).save()` for the given body fields:
      strings are trimmed when they are set, an absent `description`,
      `status` or `priority` takes its default, and validation fails
      (`None`) for a title that is empty once trimmed or a status or
      priority outside its enum. */
  function BuildTask(id: TaskId, userId: UserId, title: string, description: Option<string>,
                     status: Option<string>, priority: Option<string>, now: Millis): (r: Option<Task>)
    requires IsTaskId(id)
    ensures r.Some? <==> Trim(title) != "" &&
                         (status.Some? ==> ParseStatus(status.value).Some?) &&
                         (priority.Some? ==> ParsePriority(priority.value).Some?)
    ensures r.Some? ==> Conforms(r.value) && r.value.id == id && r.value.userId == userId &&
                        r.value.title == Trim(title) &&
                        r.value.createdAt == now && r.value.updatedAt == now
    ensures r.Some? ==> r.value.description == TrimmedDescription(description)
    ensures r.Some? && status.None? ==> r.value.status == DEFAULT_STATUS
    ensures r.Some? && priority.None? ==> r.value.priority == DEFAULT_PRIORITY
    ensures r.Some? && status.Some? ==> r.value.status.Name() == status.value
    ensures r.Some? && priority.Some? ==> r.value.priority.Name() == priority.value
  {
    var st := if status.Some? then ParseStatus(status.value) else Some(DEFAULT_STATUS);
    var pr := if priority.Some? then ParsePriority(priority.value) else Some(DEFAULT_PRIORITY);
    if Trim(title) == "" || st.None? || pr.None? then None
    else
      var desc := TrimmedDescription(description);
      Some(Task(id, userId, Trim(title), desc, st.value, pr.value, now, now))
  }

  /** The stored description: trimmed when given, `''` by default. */
  function TrimmedDescription(description: Option<string>): (d: string)
    ensures IsTrimmed(d)
    ensures description.Some? ==> d == Trim(description.value)
    ensures description.None? ==> d == ""
  {
    if description.Some? then Trim(description.value) else ""
  }
}
