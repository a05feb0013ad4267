/**
 * The database reads the components share, as filters and stable sorts over
 * an in-memory table. `.order(column, ...)` is a stable sort on that column,
 * so rows with equal timestamps keep their table order.
 */
module Queries {
  import opened Base
  import opened Rows
  import opened Sorting

  /** `.limit(n)`: the first `n` rows, or all of them when there are fewer. */
  function Take<T>(s: seq<T>, n: nat): (r: seq<T>)
    ensures |r| <= n && |r| <= |s| && (|r| == n || r == s)
    ensures r == s[..|r|]
  {
    if |s| <= n then s else s[..n]
  }

  function EmployeeCreatedAt(r: EmployeeRow): int {
    r.createdAt
  }

  function TaskCreatedAt(t: TaskRow): int {
    t.createdAt
  }

  /** `.eq("created_by", userId)` */
  function CreatedBy(userId: string): TaskRow -> bool {
    (t: TaskRow) => t.createdBy == userId
  }

  /** `.from("tasks").select(...).eq("created_by", userId).order("created_at", { ascending: false })` */
  function OwnTasks(table: seq<TaskRow>, userId: string): seq<TaskRow> {
    Sort(Filter(table, CreatedBy(userId)), Descending(TaskCreatedAt))
  }

  /** The user's task list holds exactly the user's rows, each as often as stored, newest first. */
  lemma OwnTasksSpec(table: seq<TaskRow>, userId: string)
    ensures multiset(OwnTasks(table, userId)) == multiset(Filter(table, CreatedBy(userId)))
    ensures forall t :: t in OwnTasks(table, userId) <==> t in table && t.createdBy == userId
    ensures forall i, j :: 0 <= i < j < |OwnTasks(table, userId)| ==>
      OwnTasks(table, userId)[i].createdAt >= OwnTasks(table, userId)[j].createdAt
  {
    var own := Filter(table, CreatedBy(userId));
    SortDescending(own, TaskCreatedAt);
    forall t ensures t in OwnTasks(table, userId) <==> t in table && t.createdBy == userId {
      FilterMembership(table, CreatedBy(userId), t);
      assert t in OwnTasks(table, userId) <==> multiset(OwnTasks(table, userId))[t] > 0;
      assert t in own <==> multiset(own)[t] > 0;
    }
  }

  /** A task strictly newer than every other task of its creator heads that creator's list. */
  lemma NewestHeadsList(table: seq<TaskRow>, userId: string, t: TaskRow)
    requires t in table && t.createdBy == userId
    requires forall u :: u in table && u.createdBy == userId && u != t ==> u.createdAt < t.createdAt
    ensures |OwnTasks(table, userId)| > 0 && OwnTasks(table, userId)[0] == t
  {
    OwnTasksSpec(table, userId);
    var s := OwnTasks(table, userId);
    assert t in s;
    var j :| 0 <= j < |s| && s[j] == t;
    if 0 < j {
      assert s[0].createdAt >= s[j].createdAt;
    }
    assert s[0] in s && s[0].createdAt >= t.createdAt;
  }
}
