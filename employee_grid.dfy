/**
 * The employee grid (src/components/EmployeeGrid.tsx): the user's live
 * employees, newest first, and the soft delete behind each card's remove
 * action.
 *
 * The `employees` table is an array the delete updates in place. The
 * clock and the error each database call returns are parameters.
 */
module EmployeeGrid {
  import opened Base
  import opened Rows
  import opened Sorting
  import opened Queries

  const FetchFailed: string := "Failed to fetch employees"
  const DeleteFailed: string := "Failed to delete employee"
  const Removed: string := "Employee has been soft-deleted. You can restore within 30 days."

  /** `.eq("user_id", userId).is("deleted_at", null)` */
  function Live(userId: string): EmployeeRow -> bool {
    (r: EmployeeRow) => r.userId == userId && r.deletedAt.None?
  }

  /** `fetchEmployees`' query: the user's live rows, `created_at` descending. */
  function Listing(rows: seq<EmployeeRow>, userId: string): seq<EmployeeRow> {
    Sort(Filter(rows, Live(userId)), Descending(EmployeeCreatedAt))
  }

  /** One row after `.update({ deleted_at: now }).eq("id", id)`. */
  function MarkDeleted(r: EmployeeRow, id: string, now: int): EmployeeRow {
    if r.id == id then r.(deletedAt := Some(now)) else r
  }

  /** The table after the soft delete: every row stays, and only rows with that id get a deletion time. */
  function SoftDeleted(rows: seq<EmployeeRow>, id: string, now: int): (after: seq<EmployeeRow>)
    ensures |after| == |rows|
    ensures forall i :: 0 <= i < |rows| && rows[i].id != id ==> after[i] == rows[i]
    ensures forall i :: 0 <= i < |rows| && rows[i].id == id ==> after[i] == rows[i].(deletedAt := Some(now))
  {
    if rows == [] then [] else [MarkDeleted(rows[0], id, now)] + SoftDeleted(rows[1..], id, now)
  }

  /** The soft delete, row by row over the table. */
  method SoftDelete(table: array<EmployeeRow>, id: string, now: int)
    modifies table
    ensures table[..] == SoftDeleted(old(table[..]), id, now)
  {
    for i := 0 to table.Length
      invariant forall k :: 0 <= k < i ==> table[k] == MarkDeleted(old(table[k]), id, now)
      invariant forall k :: i <= k < table.Length ==> table[k] == old(table[k])
    {
      if table[i].id == id {
        table[i] := table[i].(deletedAt := Some(now));
      }
    }
  }

  class Grid {
    const userId: string
    var employees: seq<EmployeeRow>
    var loading: bool
    /** The toasts shown, oldest first. */
    var toasts: seq<string>

    constructor (userId: string)
      ensures this.userId == userId && employees == [] && loading && toasts == []
    {
      this.userId := userId;
      employees := [];
      loading := true;
      toasts := [];
    }

    /** `fetchEmployees`: replace the list on success, toast and keep it on error; loading ends either way. */
    method FetchEmployees(table: array<EmployeeRow>, fetchError: Option<string>)
      modifies this
      ensures employees == if fetchError.Some? then old(employees) else Listing(table[..], userId)
      ensures toasts == old(toasts) + if fetchError.Some? then [ErrorText(fetchError.value, FetchFailed)] else []
      ensures !loading
    {
      if fetchError.Some? {
        toasts := toasts + [ErrorText(fetchError.value, FetchFailed)];
      } else {
        employees := Listing(table[..], userId);
      }
      loading := false;
    }

    /**
     * `handleDelete` (src/components/EmployeeGrid.tsx:54-76): the soft
     * delete, then a fresh read of the list; a failed update changes nothing
     * but the toasts.
     */
    method HandleDelete(table: array<EmployeeRow>, id: string, now: int,
                        deleteError: Option<string>, fetchError: Option<string>)
      modifies this, table
      ensures deleteError.Some? ==>
        table[..] == old(table[..]) && employees == old(employees) && loading == old(loading) &&
        toasts == old(toasts) + [ErrorText(deleteError.value, DeleteFailed)]
      ensures deleteError.None? ==>
        table[..] == SoftDeleted(old(table[..]), id, now) && !loading &&
        employees == (if fetchError.Some? then old(employees) else Listing(table[..], userId)) &&
        toasts == old(toasts) + [Removed] + (if fetchError.Some? then [ErrorText(fetchError.value, FetchFailed)] else [])
    {
      if deleteError.Some? {
        toasts := toasts + [ErrorText(deleteError.value, DeleteFailed)];
        return;
      }
      SoftDelete(table, id, now);
      toasts := toasts + [Removed];
      FetchEmployees(table, fetchError);
    }
  }

  /** The listing holds exactly the user's live rows, each as often as stored, newest first. */
  lemma ListingExact(rows: seq<EmployeeRow>, userId: string)
    ensures multiset(Listing(rows, userId)) == multiset(Filter(rows, Live(userId)))
    ensures forall r :: r in Listing(rows, userId) <==> r in rows && r.userId == userId && r.deletedAt.None?
    ensures forall i, j :: 0 <= i < j < |Listing(rows, userId)| ==>
      Listing(rows, userId)[i].createdAt >= Listing(rows, userId)[j].createdAt
  {
    var live := Filter(rows, Live(userId));
    SortDescending(live, EmployeeCreatedAt);
    forall r ensures r in Listing(rows, userId) <==> r in rows && r.userId == userId && r.deletedAt.None? {
      FilterMembership(rows, Live(userId), r);
      assert r in Listing(rows, userId) <==> multiset(Listing(rows, userId))[r] > 0;
      assert r in live <==> multiset(live)[r] > 0;
    }
  }

  /**
   * After the soft delete the removed employee is no longer listed, and every
   * other listed employee still is.
   */
  lemma DeleteHidesOnlyThatEmployee(rows: seq<EmployeeRow>, userId: string, id: string, now: int)
    ensures forall r :: r in Listing(SoftDeleted(rows, id, now), userId) ==> r.id != id
    ensures forall r :: r in Listing(rows, userId) && r.id != id ==> r in Listing(SoftDeleted(rows, id, now), userId)
  {
    var after := SoftDeleted(rows, id, now);
    ListingExact(rows, userId);
    ListingExact(after, userId);
    forall r | r in Listing(after, userId) ensures r.id != id {
      var i :| 0 <= i < |after| && after[i] == r;
    }
    forall r | r in Listing(rows, userId) && r.id != id ensures r in Listing(after, userId) {
      var i :| 0 <= i < |rows| && rows[i] == r;
      assert after[i] == r;
    }
  }
}
