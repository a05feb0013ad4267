/**
 * The manager card (src/components/ManagerCard.tsx): the user's earliest
 * live manager, or nothing.
 */
module ManagerCard {
  import opened Base
  import opened Rows
  import opened Sorting
  import opened Queries
  import EmployeeGrid

  /** `.eq("user_id", userId).eq("role", "manager").is("deleted_at", null)` */
  function Candidate(userId: string): EmployeeRow -> bool {
    (r: EmployeeRow) => r.userId == userId && r.role == Manager && r.deletedAt.None?
  }

  /** `.order("created_at", { ascending: true }).limit(1).maybeSingle()` */
  function ManagerOf(rows: seq<EmployeeRow>, userId: string): Option<EmployeeRow> {
    var ranked := Sort(Filter(rows, Candidate(userId)), Ascending(EmployeeCreatedAt));
    if ranked == [] then None else Some(ranked[0])
  }

  /** What `fetchManager` stores: the query's row, or the initial `null` when the query fails. */
  function FetchManager(rows: seq<EmployeeRow>, userId: string, failed: bool): Option<EmployeeRow> {
    if failed then None else ManagerOf(rows, userId)
  }

  /**
   * There is a manager exactly when the user has a live manager row, and the
   * one chosen is such a row created no later than any other.
   */
  lemma ManagerChosen(rows: seq<EmployeeRow>, userId: string)
    ensures ManagerOf(rows, userId).None? <==>
      forall r :: r in rows ==> !(r.userId == userId && r.role == Manager && r.deletedAt.None?)
    ensures ManagerOf(rows, userId).Some? ==>
      var m := ManagerOf(rows, userId).value;
      m in rows && m.userId == userId && m.role == Manager && m.deletedAt.None? &&
      forall r :: r in rows && r.userId == userId && r.role == Manager && r.deletedAt.None? ==> m.createdAt <= r.createdAt
  {
    var candidates := Filter(rows, Candidate(userId));
    var ranked := Sort(candidates, Ascending(EmployeeCreatedAt));
    SortAscending(candidates, EmployeeCreatedAt);
    forall r ensures r in ranked <==> r in rows && r.userId == userId && r.role == Manager && r.deletedAt.None? {
      FilterMembership(rows, Candidate(userId), r);
      assert r in ranked <==> multiset(ranked)[r] > 0;
      assert r in candidates <==> multiset(candidates)[r] > 0;
    }
    if ranked != [] {
      assert ranked[0] in ranked;
      forall r | r in rows && r.userId == userId && r.role == Manager && r.deletedAt.None?
        ensures ranked[0].createdAt <= r.createdAt
      {
        var j :| 0 <= j < |ranked| && ranked[j] == r;
        if 0 < j {
          assert ranked[0].createdAt <= ranked[j].createdAt;
        }
      }
    }
  }

  /** A manager removed through the grid's soft delete is never the one shown. */
  lemma DeletedManagerNotChosen(rows: seq<EmployeeRow>, userId: string, id: string, now: int)
    ensures ManagerOf(EmployeeGrid.SoftDeleted(rows, id, now), userId).None? ||
            ManagerOf(EmployeeGrid.SoftDeleted(rows, id, now), userId).value.id != id
  {
    var after := EmployeeGrid.SoftDeleted(rows, id, now);
    ManagerChosen(after, userId);
    if ManagerOf(after, userId).Some? {
      var m := ManagerOf(after, userId).value;
      var i :| 0 <= i < |after| && after[i] == m;
    }
  }
}
