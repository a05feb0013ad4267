/**
 * The task manager card (src/components/TaskHistory.tsx): the user's ten
 * newest tasks, the create-task dialog and the status and priority styling.
 *
 * The `tasks` table is a parameter; `handleCreateTask` returns the table
 * with the inserted row, whose id and timestamp the database generates (here
 * parameters).
 */
module TaskHistory {
  import opened Base
  import opened Rows
  import opened Queries

  const HistoryLimit: nat := 10
  const CreateFailed: string := "Failed to create task"
  const Created: string := "Task created successfully"

  /** The dialog's form state. */
  datatype TaskForm = TaskForm(title: string, description: string, priority: string, assignedEmployeeId: string)

  /** The form as the page starts and as a successful create leaves it. */
  const BlankForm: TaskForm := TaskForm("", "", "medium", "")

  /** The object passed to `.insert(...)`. */
  datatype TaskInsert = TaskInsert(title: string, description: string, priority: string,
                                   assignedEmployeeId: Option<string>, createdBy: string, status: string)

  /** The insert payload: the form's fields, no assignee for an empty choice, created by the user and pending. */
  function CreatePayload(form: TaskForm, userId: string): (p: TaskInsert)
    ensures p.status == "pending" && p.createdBy == userId
    ensures p.title == form.title && p.description == form.description && p.priority == form.priority
    ensures p.assignedEmployeeId.None? <==> form.assignedEmployeeId == ""
    ensures p.assignedEmployeeId.Some? ==> p.assignedEmployeeId.value == form.assignedEmployeeId
  {
    TaskInsert(form.title, form.description, form.priority,
               if form.assignedEmployeeId != "" then Some(form.assignedEmployeeId) else None,
               userId, "pending")
  }

  /** The row the table holds after the insert, with the id and creation time the database assigns. */
  function StoredRow(p: TaskInsert, id: string, now: int): TaskRow {
    TaskRow(id, p.title, Some(p.description), Some(p.priority), p.status, p.createdBy, p.assignedEmployeeId, now, None)
  }

  /** `.eq("created_by", userId).order("created_at", { ascending: false }).limit(10)` */
  function RecentTasks(table: seq<TaskRow>, userId: string): seq<TaskRow> {
    Take(OwnTasks(table, userId), HistoryLimit)
  }

  datatype BadgeVariant = Default | Secondary | Destructive | Outline

  /** `variants[status] || "outline"` */
  function StatusBadge(status: string): BadgeVariant {
    if status == "completed" then Default
    else if status == "pending" then Secondary
    else Outline
  }

  /** `colors[priority] || "text-gray-500"` */
  function PriorityColor(priority: string): string {
    if priority == "high" then "text-red-500"
    else if priority == "medium" then "text-yellow-500"
    else if priority == "low" then "text-green-500"
    else "text-gray-500"
  }

  class HistoryCard {
    const userId: string
    var tasks: seq<TaskRow>
    var loading: bool
    var dialogOpen: bool
    var form: TaskForm
    /** The toasts shown, oldest first. */
    var toasts: seq<string>

    constructor (userId: string)
      ensures this.userId == userId && tasks == [] && loading && !dialogOpen && form == BlankForm && toasts == []
    {
      this.userId := userId;
      tasks := [];
      loading := true;
      dialogOpen := false;
      form := BlankForm;
      toasts := [];
    }

    /** `fetchTasks`: replace the list only on success; loading ends either way. */
    method FetchTasks(table: seq<TaskRow>, failed: bool)
      modifies this
      ensures tasks == if failed then old(tasks) else RecentTasks(table, userId)
      ensures !loading
      ensures dialogOpen == old(dialogOpen) && form == old(form) && toasts == old(toasts)
    {
      if !failed {
        tasks := RecentTasks(table, userId);
      }
      loading := false;
    }

    /** Editing the form or opening and closing the dialog. */
    method Edit(form: TaskForm, open: bool)
      modifies this
      ensures this.form == form && dialogOpen == open
      ensures tasks == old(tasks) && loading == old(loading) && toasts == old(toasts)
    {
      this.form := form;
      dialogOpen := open;
    }

    /**
     * `handleCreateTask` (src/components/TaskHistory.tsx:99-131). Nothing is
     * checked before the insert. On error the form and dialog are kept; on
     * success the dialog closes, the form is reset and the list is read again.
     */
    method HandleCreateTask(table: seq<TaskRow>, failed: bool, id: string, now: int, refetchFailed: bool)
      returns (written: seq<TaskRow>)
      modifies this
      ensures failed ==>
        written == table && toasts == old(toasts) + [CreateFailed] && form == old(form) &&
        dialogOpen == old(dialogOpen) && tasks == old(tasks) && loading == old(loading)
      ensures !failed ==>
        written == table + [StoredRow(CreatePayload(old(form), userId), id, now)] &&
        toasts == old(toasts) + [Created] && form == BlankForm && !dialogOpen && !loading &&
        tasks == (if refetchFailed then old(tasks) else RecentTasks(written, userId))
    {
      var payload := CreatePayload(form, userId);
      if failed {
        toasts := toasts + [CreateFailed];
        return table;
      }
      written := table + [StoredRow(payload, id, now)];
      toasts := toasts + [Created];
      dialogOpen := false;
      form := BlankForm;
      FetchTasks(written, refetchFailed);
    }
  }

  /**
   * The card lists the ten newest of the user's own tasks (all of them when
   * there are fewer), newest first: no own task left out is newer than one
   * that is listed.
   */
  lemma RecentTasksSpec(table: seq<TaskRow>, userId: string)
    ensures |RecentTasks(table, userId)| <= HistoryLimit
    ensures |RecentTasks(table, userId)| ==
      if |Filter(table, CreatedBy(userId))| < HistoryLimit then |Filter(table, CreatedBy(userId))| else HistoryLimit
    ensures forall t :: t in RecentTasks(table, userId) ==> t in table && t.createdBy == userId
    ensures forall i, j :: 0 <= i < j < |RecentTasks(table, userId)| ==>
      RecentTasks(table, userId)[i].createdAt >= RecentTasks(table, userId)[j].createdAt
    ensures forall t, r ::
      (t in table && t.createdBy == userId && t !in RecentTasks(table, userId) && r in RecentTasks(table, userId)) ==>
      t.createdAt <= r.createdAt
  {
    OwnTasksSpec(table, userId);
    var own := OwnTasks(table, userId);
    var recent := RecentTasks(table, userId);
    assert recent == own[..|recent|];
    assert |own| == |Filter(table, CreatedBy(userId))| by {
      assert |multiset(own)| == |multiset(Filter(table, CreatedBy(userId)))|;
    }
    forall t | t in recent ensures t in own {
      var i :| 0 <= i < |recent| && recent[i] == t;
      assert own[i] == t;
    }
    forall t, r | t in table && t.createdBy == userId && t !in recent && r in recent
      ensures t.createdAt <= r.createdAt
    {
      assert t in own;
      var k :| 0 <= k < |own| && own[k] == t;
      var i :| 0 <= i < |recent| && recent[i] == r;
      assert own[i] == r;
    }
  }

  /** A task created after every other task of the user heads the refreshed list, with the form's contents. */
  lemma CreatedTaskFirst(table: seq<TaskRow>, userId: string, form: TaskForm, id: string, now: int)
    requires forall t :: t in table && t.createdBy == userId ==> t.createdAt < now
    ensures var row := StoredRow(CreatePayload(form, userId), id, now);
      var recent := RecentTasks(table + [row], userId);
      |recent| > 0 && recent[0] == row && row.status == "pending" && row.title == form.title
  {
    var row := StoredRow(CreatePayload(form, userId), id, now);
    var written := table + [row];
    forall u | u in written && u.createdBy == userId && u != row
      ensures u.createdAt < row.createdAt
    {
      assert u in table;
    }
    NewestHeadsList(written, userId, row);
  }

  /** The status badge: the two known statuses get their own variant, everything else the outline one. */
  lemma StatusBadgeCases(status: string)
    ensures StatusBadge("completed") == Default && StatusBadge("pending") == Secondary
    ensures StatusBadge("in_progress") == Outline
    ensures StatusBadge(status) == Outline <==> status != "completed" && status != "pending"
  {
  }

  /**
   * Only the three lower-case words have colours; the board's priorities
   * `P1`..`P3`, an upper-case `High` and the empty string are grey.
   */
  lemma PriorityColorCases(priority: string)
    ensures PriorityColor(BlankForm.priority) == "text-yellow-500"
    ensures PriorityColor("P1") == PriorityColor("P2") == PriorityColor("P3") == PriorityColor("High") == PriorityColor("") == "text-gray-500"
    ensures PriorityColor(priority) == "text-gray-500" <==> priority !in {"high", "medium", "low"}
  {
  }
}
