/**
 * The dashboard's four counters (src/components/DashboardInsights.tsx).
 * Each `count: "exact"` query is the length of a filter over its table; a
 * failed query has no count and shows as 0.
 */
module DashboardInsights {
  import opened Base
  import opened Rows

  datatype Stats = Stats(totalEmployees: nat, activeConversations: nat, completedTasks: nat, pendingTasks: nat)

  /** The counters before the queries answer. */
  const InitialStats: Stats := Stats(0, 0, 0, 0)

  /** Which of the four queries failed. */
  datatype Failures = Failures(employees: bool, conversations: bool, completed: bool, pending: bool)

  /** `res.count || 0` for a query counting the rows that satisfy `p`. */
  function CountOrZero<T>(rows: seq<T>, p: T -> bool, failed: bool): nat {
    if failed then 0 else |Filter(rows, p)|
  }

  function LiveEmployeeOf(userId: string): EmployeeRow -> bool {
    (e: EmployeeRow) => e.userId == userId && e.deletedAt.None?
  }

  function TaskWithStatus(userId: string, status: string): TaskRow -> bool {
    (t: TaskRow) => t.createdBy == userId && t.status == status
  }

  /** The conversation query as written: `.eq("employee_id", userId)`. */
  function EmployeeIdIsUser(userId: string): ConversationRow -> bool {
    (c: ConversationRow) => c.employeeId == userId
  }

  /** The ids of the user's employees. */
  function EmployeeIds(employees: seq<EmployeeRow>, userId: string): set<string> {
    set e | e in employees && e.userId == userId :: e.id
  }

  /** The conversation query as intended: conversations held with one of the user's employees. */
  function WithOwnEmployee(employees: seq<EmployeeRow>, userId: string): ConversationRow -> bool {
    (c: ConversationRow) => c.employeeId in EmployeeIds(employees, userId)
  }

  /** `fetchStats` as written (src/components/DashboardInsights.tsx:19-33). */
  function FetchStatsAsWritten(employees: seq<EmployeeRow>, conversations: seq<ConversationRow>,
                               tasks: seq<TaskRow>, userId: string, failures: Failures): Stats {
    Stats(CountOrZero(employees, LiveEmployeeOf(userId), failures.employees),
          CountOrZero(conversations, EmployeeIdIsUser(userId), failures.conversations),
          CountOrZero(tasks, TaskWithStatus(userId, "completed"), failures.completed),
          CountOrZero(tasks, TaskWithStatus(userId, "pending"), failures.pending))
  }

  /** `fetchStats` with the conversation count over the user's employees. */
  function FetchStats(employees: seq<EmployeeRow>, conversations: seq<ConversationRow>,
                      tasks: seq<TaskRow>, userId: string, failures: Failures): Stats {
    FetchStatsAsWritten(employees, conversations, tasks, userId, failures).(
      activeConversations := CountOrZero(conversations, WithOwnEmployee(employees, userId), failures.conversations))
  }

  /** Every failed query leaves its counter at 0; when all fail the stats stay as they started. */
  lemma FailedCountsZero(employees: seq<EmployeeRow>, conversations: seq<ConversationRow>,
                         tasks: seq<TaskRow>, userId: string)
    ensures FetchStats(employees, conversations, tasks, userId, Failures(true, true, true, true)) == InitialStats
    ensures FetchStatsAsWritten(employees, conversations, tasks, userId, Failures(true, true, true, true)) == InitialStats
  {
  }

  /**
   * The task counters count by exact status: together they never exceed the
   * user's tasks, and a task with any other status (or another creator)
   * changes neither.
   */
  lemma TaskCountsExact(employees: seq<EmployeeRow>, conversations: seq<ConversationRow>,
                        tasks: seq<TaskRow>, userId: string, failures: Failures, t: TaskRow)
    requires t.createdBy != userId || (t.status != "completed" && t.status != "pending")
    ensures var before := FetchStats(employees, conversations, tasks, userId, failures);
      var after := FetchStats(employees, conversations, tasks + [t], userId, failures);
      after.completedTasks == before.completedTasks && after.pendingTasks == before.pendingTasks
    ensures var s := FetchStats(employees, conversations, tasks, userId, Failures(false, false, false, false));
      s.completedTasks + s.pendingTasks <= |tasks|
  {
    FilterAppend(tasks, [t], TaskWithStatus(userId, "completed"));
    FilterAppend(tasks, [t], TaskWithStatus(userId, "pending"));
    assert Filter([t], TaskWithStatus(userId, "completed")) == [] by {
      assert [t][..0] == [];
    }
    assert Filter([t], TaskWithStatus(userId, "pending")) == [] by {
      assert [t][..0] == [];
    }
    CountsDisjoint(tasks, userId);
  }

  /** The completed and pending counts never overlap. */
  lemma {:induction false} CountsDisjoint(tasks: seq<TaskRow>, userId: string)
    ensures |Filter(tasks, TaskWithStatus(userId, "completed"))| + |Filter(tasks, TaskWithStatus(userId, "pending"))| <= |tasks|
  {
    if tasks != [] {
      CountsDisjoint(tasks[..|tasks| - 1], userId);
    }
  }

  /**
   * As written, a conversation counts only when its `employee_id` equals the
   * user's id. A conversation with one of the user's employees, whose id is
   * not the user's id, is not counted.
   */
  lemma AsWrittenMissesConversation(employees: seq<EmployeeRow>, conversations: seq<ConversationRow>,
                                    tasks: seq<TaskRow>, userId: string, c: ConversationRow)
    requires c.employeeId in EmployeeIds(employees, userId) && c.employeeId != userId
    ensures FetchStatsAsWritten(employees, conversations + [c], tasks, userId, Failures(false, false, false, false)).activeConversations ==
            FetchStatsAsWritten(employees, conversations, tasks, userId, Failures(false, false, false, false)).activeConversations
  {
    FilterAppend(conversations, [c], EmployeeIdIsUser(userId));
    assert Filter([c], EmployeeIdIsUser(userId)) == [] by {
      assert [c][..0] == [];
    }
  }

  /** The same conversation raises the intended count by one. */
  lemma OwnConversationCounted(employees: seq<EmployeeRow>, conversations: seq<ConversationRow>,
                               tasks: seq<TaskRow>, userId: string, c: ConversationRow)
    requires c.employeeId in EmployeeIds(employees, userId)
    ensures FetchStats(employees, conversations + [c], tasks, userId, Failures(false, false, false, false)).activeConversations ==
            FetchStats(employees, conversations, tasks, userId, Failures(false, false, false, false)).activeConversations + 1
  {
    FilterAppend(conversations, [c], WithOwnEmployee(employees, userId));
    assert Filter([c], WithOwnEmployee(employees, userId)) == [c] by {
      assert [c][..0] == [];
    }
  }

  /** One employee, one conversation with it: the counter as written shows 0, the intended one 1. */
  lemma ActiveConversationsExample()
    ensures var e := EmployeeRow("e1", "u1", "Ada", Female, Technology, Junior, EmployeeRole, None, None, 0);
      var c := ConversationRow("c1", "e1", 1);
      FetchStatsAsWritten([e], [c], [], "u1", Failures(false, false, false, false)).activeConversations == 0 &&
      FetchStats([e], [c], [], "u1", Failures(false, false, false, false)).activeConversations == 1
  {
    var e := EmployeeRow("e1", "u1", "Ada", Female, Technology, Junior, EmployeeRole, None, None, 0);
    var c := ConversationRow("c1", "e1", 1);
    assert e in [e];
    assert "e1" in EmployeeIds([e], "u1");
    assert [c][..0] == [];
  }
}
