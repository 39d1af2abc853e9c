/**
 * frontend/src/components/TasksList.jsx: the in-memory task table. Rows are
 * patched by id, deleted by id and prepended; one row's title can be edited
 * inline through a draft that is committed trimmed or cancelled. The list
 * never talks to the backend.
 */
module TasksList {
  import opened Wrappers
  import opened Text

  /** A row of the table; every field is the text the table shows. */
  datatype Row = Row(id: string, title: string, status: string, priority: string, dueDate: string)

  /** A partial row: the fields present overwrite the row's, as `{ ...t, ...patch }` does. */
  datatype Patch = Patch(title: Option<string>, status: Option<string>, priority: Option<string>, dueDate: Option<string>)

  function Pick(patched: Option<string>, current: string): string
  {
    if patched.Some? then patched.value else current
  }

  function Merge(t: Row, p: Patch): (r: Row)
    ensures r.id == t.id
    ensures r.title == Pick(p.title, t.title) && r.status == Pick(p.status, t.status)
    ensures r.priority == Pick(p.priority, t.priority) && r.dueDate == Pick(p.dueDate, t.dueDate)
  {
    Row(t.id, Pick(p.title, t.title), Pick(p.status, t.status), Pick(p.priority, t.priority), Pick(p.dueDate, t.dueDate))
  }

  function TitlePatch(title: string): Patch
  {
    Patch(Some(title), None, None, None)
  }

  /** `prev.map(t => t.id === id ? { ...t, ...patch } : t)`. */
  function Patched(rows: seq<Row>, id: string, p: Patch): (r: seq<Row>)
    ensures |r| == |rows|
    ensures forall i :: 0 <= i < |r| ==> r[i].id == rows[i].id
    ensures forall i :: 0 <= i < |r| && rows[i].id != id ==> r[i] == rows[i]
    ensures forall i :: 0 <= i < |r| && rows[i].id == id ==> r[i] == Merge(rows[i], p)
  {
    seq(|rows|, i requires 0 <= i < |rows| => if rows[i].id == id then Merge(rows[i], p) else rows[i])
  }

  /** `prev.filter(t => t.id !== id)`. */
  function Without(rows: seq<Row>, id: string): (r: seq<Row>)
    ensures forall t :: t in r <==> t in rows && t.id != id
    ensures |r| <= |rows|
  {
    if rows == [] then []
    else (if rows[0].id != id then [rows[0]] else []) + Without(rows[1..], id)
  }

  /** The three rows the list starts with. */
  const SeedRows: seq<Row> := [
    Row("t1", "Write project brief", "Todo", "High", "2026-02-25"),
    Row("t2", "Create wireframes", "In Progress", "Medium", "2026-02-28"),
    Row("t3", "Ship v1", "Done", "Low", "2026-03-05")
  ]

  /** The row "Add task" prepends; `id` is the random UUID or timestamp the browser supplies. */
  function NewRow(id: string): Row
  {
    Row(id, "New task", "Todo", "Medium", "")
  }

  /** The footer text: the number of rows, then "task", plural unless there is exactly one. */
  function FooterLabel(count: nat): string
  {
    DecimalString(count) + " task" + (if count == 1 then "" else "s")
  }

  class TaskList {
    var tasks: seq<Row>
    /** The id of the row whose title is being edited, if any. */
    var editingTitleId: Option<string>
    var draftTitle: string

    constructor()
      ensures tasks == SeedRows && editingTitleId.None? && draftTitle == ""
    {
      tasks := SeedRows;
      editingTitleId := None;
      draftTitle := "";
    }

    /** `updateTask(id, patch)`. */
    method UpdateTask(id: string, p: Patch)
      modifies this
      ensures tasks == Patched(old(tasks), id, p)
      ensures editingTitleId == old(editingTitleId) && draftTitle == old(draftTitle)
    {
      tasks := Patched(tasks, id, p);
    }

    /** `deleteTask(id)`. */
    method DeleteTask(id: string)
      modifies this
      ensures tasks == Without(old(tasks), id)
      ensures editingTitleId == old(editingTitleId) && draftTitle == old(draftTitle)
    {
      tasks := Without(tasks, id);
    }

    /** The "Add task" button. */
    method AddTask(id: string)
      modifies this
      ensures tasks == [NewRow(id)] + old(tasks)
      ensures editingTitleId == old(editingTitleId) && draftTitle == old(draftTitle)
    {
      tasks := [NewRow(id)] + tasks;
    }

    /** `startEditTitle(task)`. */
    method StartEditTitle(task: Row)
      modifies this
      ensures editingTitleId == Some(task.id) && draftTitle == task.title
      ensures tasks == old(tasks)
    {
      editingTitleId := Some(task.id);
      draftTitle := task.title;
    }

    /** The title input's `onChange`. */
    method SetDraftTitle(value: string)
      modifies this
      ensures draftTitle == value
      ensures tasks == old(tasks) && editingTitleId == old(editingTitleId)
    {
      draftTitle := value;
    }

    /** `commitTitle(id)`: stores the trimmed draft as the title, with no length check, and ends editing. */
    method CommitTitle(id: string)
      modifies this
      ensures tasks == Patched(old(tasks), id, TitlePatch(Trim(old(draftTitle))))
      ensures editingTitleId.None? && draftTitle == ""
    {
      var next := Trim(draftTitle);
      UpdateTask(id, TitlePatch(next));
      editingTitleId := None;
      draftTitle := "";
    }

    /** `cancelTitle()`: ends editing and keeps every row. */
    method CancelTitle()
      modifies this
      ensures editingTitleId.None? && draftTitle == ""
      ensures tasks == old(tasks)
    {
      editingTitleId := None;
      draftTitle := "";
    }
  }

  // ---------------------------------------------------------------------------
  // Properties of the row operations.

  /** Patching twice with the same patch is patching once. */
  lemma PatchIdempotent(rows: seq<Row>, id: string, p: Patch)
    ensures Patched(Patched(rows, id, p), id, p) == Patched(rows, id, p)
  {
  }

  /** Deleting keeps the remaining rows in their order: it distributes over concatenation. */
  lemma {:induction false} WithoutAppend(a: seq<Row>, b: seq<Row>, id: string)
    ensures Without(a + b, id) == Without(a, id) + Without(b, id)
  {
    if a == [] {
      assert a + b == b;
    } else {
      assert (a + b)[1..] == a[1..] + b;
      WithoutAppend(a[1..], b, id);
    }
  }

  /** Deleting an id no row carries changes nothing. */
  lemma {:induction false} WithoutAbsent(rows: seq<Row>, id: string)
    requires forall i :: 0 <= i < |rows| ==> rows[i].id != id
    ensures Without(rows, id) == rows
  {
    if rows != [] {
      WithoutAbsent(rows[1..], id);
    }
  }

  /** Deleting a row undoes any edit made to it: a patch followed by a delete of the same id is the delete alone. */
  lemma {:induction false} DeleteAfterPatch(rows: seq<Row>, id: string, p: Patch)
    ensures Without(Patched(rows, id, p), id) == Without(rows, id)
  {
    if rows != [] {
      var r := Patched(rows, id, p);
      assert r[1..] == Patched(rows[1..], id, p);
      DeleteAfterPatch(rows[1..], id, p);
    }
  }

  /** Deleting the id of a freshly added row removes it again (and every older row with that id). */
  lemma AddThenDelete(rows: seq<Row>, id: string)
    ensures Without([NewRow(id)] + rows, id) == Without(rows, id)
  {
    WithoutAppend([NewRow(id)], rows, id);
  }

  /** Committing a title stores it trimmed: an edited row's title never has whitespace at either end. */
  lemma CommittedTitleTrimmed(rows: seq<Row>, id: string, draft: string, i: int)
    requires 0 <= i < |rows| && rows[i].id == id
    ensures Patched(rows, id, TitlePatch(Trim(draft)))[i].title == Trim(draft)
    ensures Trim(Patched(rows, id, TitlePatch(Trim(draft)))[i].title) == Patched(rows, id, TitlePatch(Trim(draft)))[i].title
  {
    TrimIdempotent(draft);
  }

  /** The footer starts with the row count in decimal and says "task" only for exactly one row. */
  lemma FooterCounts(count: nat)
    ensures var footer := FooterLabel(count);
            var digits := DecimalString(count);
            && footer[..|digits|] == digits
            && DecimalValue(digits) == count
            && (count == 1 <==> footer[|digits|..] == " task")
            && (count != 1 <==> footer[|digits|..] == " tasks")
  {
    var digits := DecimalString(count);
    var footer := FooterLabel(count);
    DecimalRoundTrip(count);
    assert footer[|digits|..] == " task" + (if count == 1 then "" else "s");
  }
}
