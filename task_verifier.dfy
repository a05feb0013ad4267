/**
 * The task verifier page (src/pages/TaskVerifier.tsx): the user's tasks,
 * split into a pending and a completed panel, and the approve/reject action.
 *
 * The `tasks` table is a parameter; `handleVerify` returns the table as the
 * update left it. The session user, the clock and the outcome of each
 * database call are parameters too.
 */
module TaskVerifier {
  import opened Base
  import opened Rows
  import opened Queries

  const Completed: string := "completed"
  const Pending: string := "pending"
  const UpdateFailed: string := "Failed to update task status"

  /** The two columns `handleVerify` writes; the verification notes are not among them. */
  datatype StatusUpdate = StatusUpdate(status: string, completedAt: Option<int>)

  /** `{ status: approved ? "completed" : "pending", completed_at: approved ? now : null }` */
  function VerdictUpdate(approved: bool, now: int): (u: StatusUpdate)
    ensures u.completedAt.Some? <==> u.status == Completed
    ensures approved <==> u.status == Completed
    ensures !approved ==> u.status == Pending
    ensures u.completedAt.Some? ==> u.completedAt.value == now
  {
    if approved then StatusUpdate(Completed, Some(now)) else StatusUpdate(Pending, None)
  }

  /** One row after `.update(u).eq("id", taskId)`. */
  function UpdateRow(r: TaskRow, taskId: string, u: StatusUpdate): TaskRow {
    if r.id == taskId then r.(status := u.status, completedAt := u.completedAt) else r
  }

  /** The table after `.update(u).eq("id", taskId)`: only the rows with that id change, and only in the two columns. */
  function ApplyUpdate(table: seq<TaskRow>, taskId: string, u: StatusUpdate): (written: seq<TaskRow>)
    ensures |written| == |table|
    ensures forall i :: 0 <= i < |table| && table[i].id != taskId ==> written[i] == table[i]
    ensures forall i :: 0 <= i < |table| && table[i].id == taskId ==>
      written[i] == table[i].(status := u.status, completedAt := u.completedAt)
  {
    if table == [] then []
    else [UpdateRow(table[0], taskId, u)] + ApplyUpdate(table[1..], taskId, u)
  }

  function HasStatus(status: string): TaskRow -> bool {
    (t: TaskRow) => t.status == status
  }

  /** `tasks.filter(t => t.status === "pending")` */
  function PendingPanel(tasks: seq<TaskRow>): seq<TaskRow> {
    Filter(tasks, HasStatus(Pending))
  }

  /** `tasks.filter(t => t.status === "completed")` */
  function CompletedPanel(tasks: seq<TaskRow>): seq<TaskRow> {
    Filter(tasks, HasStatus(Completed))
  }

  /** The success toast: `Task ${approved ? "approved" : "rejected"} successfully`. */
  function VerdictToast(approved: bool): string {
    "Task " + (if approved then "approved" else "rejected") + " successfully"
  }

  class VerifierPage {
    /** The session user's id, once known. */
    var user: Option<string>
    var tasks: seq<TaskRow>
    var selectedTask: Option<string>
    var verificationNotes: string
    /** The toasts shown, oldest first. */
    var toasts: seq<string>

    constructor (user: Option<string>)
      ensures this.user == user && tasks == [] && selectedTask == None && verificationNotes == "" && toasts == []
    {
      this.user := user;
      tasks := [];
      selectedTask := None;
      verificationNotes := "";
      toasts := [];
    }

    /** `fetchTasks`: `if (data) setTasks(data)`, so a failed read keeps the list. */
    method FetchTasks(table: seq<TaskRow>, userId: string, failed: bool)
      modifies this
      ensures tasks == if failed then old(tasks) else OwnTasks(table, userId)
      ensures user == old(user) && selectedTask == old(selectedTask)
      ensures verificationNotes == old(verificationNotes) && toasts == old(toasts)
    {
      if !failed {
        tasks := OwnTasks(table, userId);
      }
    }

    /** Clicking a pending task. */
    method Select(taskId: string)
      modifies this
      ensures selectedTask == Some(taskId)
      ensures user == old(user) && tasks == old(tasks) && verificationNotes == old(verificationNotes) && toasts == old(toasts)
    {
      selectedTask := Some(taskId);
    }

    /** Typing into the notes box. */
    method SetNotes(text: string)
      modifies this
      ensures verificationNotes == text
      ensures user == old(user) && tasks == old(tasks) && selectedTask == old(selectedTask) && toasts == old(toasts)
    {
      verificationNotes := text;
    }

    /**
     * `handleVerify` (src/pages/TaskVerifier.tsx:63-87). `written` is the
     * table after the update; on error it is the table unchanged and only a
     * toast is added. On success the selection and notes are cleared and,
     * with a user, the list is read again from the written table.
     */
    method HandleVerify(table: seq<TaskRow>, taskId: string, approved: bool, failed: bool,
                        refetchFailed: bool, now: int) returns (written: seq<TaskRow>)
      modifies this
      ensures user == old(user)
      ensures failed ==>
        written == table && toasts == old(toasts) + [UpdateFailed] && tasks == old(tasks) &&
        selectedTask == old(selectedTask) && verificationNotes == old(verificationNotes)
      ensures !failed ==>
        written == ApplyUpdate(table, taskId, VerdictUpdate(approved, now)) &&
        toasts == old(toasts) + [VerdictToast(approved)] &&
        selectedTask == None && verificationNotes == "" &&
        tasks == (if user.Some? && !refetchFailed then OwnTasks(written, user.value) else old(tasks))
    {
      if failed {
        toasts := toasts + [UpdateFailed];
        return table;
      }
      written := ApplyUpdate(table, taskId, VerdictUpdate(approved, now));
      toasts := toasts + [VerdictToast(approved)];
      if user.Some? {
        FetchTasks(written, user.value, refetchFailed);
      }
      selectedTask := None;
      verificationNotes := "";
    }
  }

  /** Every row the action writes has a completion time exactly when it is completed. */
  lemma WrittenRowsConsistent(table: seq<TaskRow>, taskId: string, approved: bool, now: int)
    ensures forall r :: r in ApplyUpdate(table, taskId, VerdictUpdate(approved, now)) && r.id == taskId ==>
      r.status == (if approved then Completed else Pending) && (r.completedAt.Some? <==> r.status == Completed)
  {
    var written := ApplyUpdate(table, taskId, VerdictUpdate(approved, now));
    forall r | r in written && r.id == taskId
      ensures r.status == (if approved then Completed else Pending) && (r.completedAt.Some? <==> r.status == Completed)
    {
      var i :| 0 <= i < |written| && written[i] == r;
      assert table[i].id == taskId;
    }
  }

  /** The panels are the two exact-status slices of the list; a task is never in both, and other statuses are in neither. */
  lemma PanelsExact(tasks: seq<TaskRow>, t: TaskRow)
    ensures t in PendingPanel(tasks) <==> t in tasks && t.status == Pending
    ensures t in CompletedPanel(tasks) <==> t in tasks && t.status == Completed
    ensures !(t in PendingPanel(tasks) && t in CompletedPanel(tasks))
  {
    FilterMembership(tasks, HasStatus(Pending), t);
    FilterMembership(tasks, HasStatus(Completed), t);
  }

  /**
   * After a verdict and the refetch, the verified task of this user is
   * listed with the new status, in the completed panel when approved and in
   * the pending panel when rejected, and not in the other one.
   */
  lemma VerdictMovesTask(table: seq<TaskRow>, userId: string, taskId: string, approved: bool, now: int, r: TaskRow)
    requires r in table && r.id == taskId && r.createdBy == userId
    ensures var u := VerdictUpdate(approved, now);
      var shown := OwnTasks(ApplyUpdate(table, taskId, u), userId);
      var v := r.(status := u.status, completedAt := u.completedAt);
      (v in CompletedPanel(shown) <==> approved) && (v in PendingPanel(shown) <==> !approved)
  {
    var u := VerdictUpdate(approved, now);
    var written := ApplyUpdate(table, taskId, u);
    var shown := OwnTasks(written, userId);
    var v := r.(status := u.status, completedAt := u.completedAt);
    var i :| 0 <= i < |table| && table[i] == r;
    assert written[i] == v;
    OwnTasksSpec(written, userId);
    assert v in shown;
    PanelsExact(shown, v);
  }
}
