/**
 * The Task document of backend/models/Task.js: its fields, the two
 * enumerations with their defaults, the store-level field validation that
 * runs when a document is saved, and the soft-delete liveness rule.
 */
module TaskModel {
  import opened Wrappers

  datatype Status = Todo | Doing | Done
  datatype Priority = Low | Medium | High

  function StatusName(s: Status): string
  {
    match s
    case Todo => "todo"
    case Doing => "doing"
    case Done => "done"
  }

  function PriorityName(p: Priority): string
  {
    match p
    case Low => "low"
    case Medium => "medium"
    case High => "high"
  }

  const StatusNames: seq<string> := ["todo", "doing", "done"]
  const PriorityNames: seq<string> := ["low", "medium", "high"]

  /** The status a stored name stands for; none for a name outside the enumeration. */
  function ParseStatus(name: string): (r: Option<Status>)
    ensures r.None? <==> name !in StatusNames
    ensures r.Some? ==> StatusName(r.value) == name
  {
    if name == "todo" then Some(Todo)
    else if name == "doing" then Some(Doing)
    else if name == "done" then Some(Done)
    else None
  }

  /** The priority a stored name stands for; none for a name outside the enumeration. */
  function ParsePriority(name: string): (r: Option<Priority>)
    ensures r.None? <==> name !in PriorityNames
    ensures r.Some? ==> PriorityName(r.value) == name
  {
    if name == "low" then Some(Low)
    else if name == "medium" then Some(Medium)
    else if name == "high" then Some(High)
    else None
  }

  /** Every status has a distinct name that parses back to it. */
  lemma StatusRoundTrip(s: Status)
    ensures ParseStatus(StatusName(s)) == Some(s)
    ensures StatusName(s) in StatusNames
  {
  }

  /** Every priority has a distinct name that parses back to it. */
  lemma PriorityRoundTrip(p: Priority)
    ensures ParsePriority(PriorityName(p)) == Some(p)
    ensures PriorityName(p) in PriorityNames
  {
  }

  /**
   * A stored task. Dates are integers (milliseconds); `deletedAt` absent
   * stands for null. `createdAt` is the sort key the service names; the
   * schema does not evidently configure store-managed timestamps, so it is
   * simply a field here.
   */
  datatype Task = Task(
    id: string,
    title: string,
    description: Option<string>,
    status: Status,
    priority: Priority,
    dueDate: Option<int>,
    deletedAt: Option<int>,
    createdAt: int)

  /** A task is live, that is visible to listing, while `deletedAt` is null. */
  predicate IsLive(t: Task)
  {
    t.deletedAt.None?
  }

  /** The field constraints the store enforces on a saved task (the enumerations hold by type). */
  predicate ValidTask(t: Task)
  {
    |t.title| >= 3
  }

  /** The fields a caller hands to the store when creating a task, before casting and defaults. */
  datatype TaskInput = TaskInput(
    title: Option<string>,
    description: Option<string>,
    status: Option<string>,
    priority: Option<string>,
    dueDate: Option<int>)

  /** One failed field check, as the store reports it: path, message and validator kind. */
  datatype FieldError = FieldError(path: string, message: string, kind: string)

  /** The title check: required (a missing or empty string fails) and at least 3 characters, untrimmed. */
  function TitleErrors(title: Option<string>): (r: seq<FieldError>)
    ensures |r| <= 1
    ensures r == [] <==> title.Some? && |title.value| >= 3
  {
    if title.None? || title.value == "" then
      [FieldError("title", "Path `title` is required.", "required")]
    else if |title.value| < 3 then
      [FieldError("title", "Path `title` (`" + title.value + "`) is shorter than the minimum allowed length (3).", "minlength")]
    else []
  }

  function EnumErrors(path: string, value: Option<string>, names: seq<string>): (r: seq<FieldError>)
    ensures |r| <= 1
    ensures r == [] <==> value.None? || value.value in names
  {
    if value.None? || value.value in names then []
    else [FieldError(path, "`" + value.value + "` is not a valid enum value for path `" + path + "`.", "enum")]
  }

  /** Every failed field check, one per path, in the schema's field order. */
  function DocumentErrors(input: TaskInput): seq<FieldError>
  {
    TitleErrors(input.title)
    + EnumErrors("status", input.status, StatusNames)
    + EnumErrors("priority", input.priority, PriorityNames)
  }

  /**
   * Saving a new document: the defaults (status todo, priority medium,
   * deletedAt null) fill absent fields, then every field check runs; the
   * document is stored only when none fails. `id` and `createdAt` are the
   * values the store assigns.
   */
  function CreateDocument(input: TaskInput, id: string, createdAt: int): (r: Result<Task, seq<FieldError>>)
    ensures r.Success? <==> DocumentErrors(input) == []
    ensures r.Failure? ==> r.error == DocumentErrors(input) && r.error != []
    ensures r.Success? ==> ValidTask(r.value) && IsLive(r.value)
    ensures r.Success? ==> r.value.id == id && r.value.title == input.title.value
                           && r.value.description == input.description && r.value.dueDate == input.dueDate
    ensures r.Success? ==> StatusName(r.value.status) == (if input.status.Some? then input.status.value else "todo")
    ensures r.Success? ==> PriorityName(r.value.priority) == (if input.priority.Some? then input.priority.value else "medium")
  {
    var errors := DocumentErrors(input);
    if errors != [] then Failure(errors)
    else
      var status := if input.status.Some? then ParseStatus(input.status.value).value else Todo;
      var priority := if input.priority.Some? then ParsePriority(input.priority.value).value else Medium;
      Success(Task(id, input.title.value, input.description, status, priority, input.dueDate, None, createdAt))
  }

  /** The title constraint counts raw characters: a title padded with spaces passes although its trimmed form is too short. */
  lemma TitleNotTrimmed()
    ensures TitleErrors(Some("  a  ")) == []
    ensures TitleErrors(Some("ab")) != []
  {
  }

  /** Which checks fail depends only on the fields' values: a document is rejected exactly when one of its three checked fields is bad. */
  lemma DocumentRejectedIff(input: TaskInput)
    ensures DocumentErrors(input) != [] <==>
      (input.title.None? || |input.title.value| < 3
       || (input.status.Some? && ParseStatus(input.status.value).None?)
       || (input.priority.Some? && ParsePriority(input.priority.value).None?))
  {
  }
}
