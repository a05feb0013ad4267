/**
 * One employee card (src/components/EmployeeCard.tsx): the gender label and
 * the remove confirmation, which hands the employee's id to `onDelete`.
 */
module EmployeeCard {
  import opened Rows

  /** `getGenderLabel` */
  function GenderLabel(gender: string): (shown: string)
    ensures shown == "Male" <==> gender == "male"
    ensures shown == "Female" <==> gender == "female"
    ensures shown == "Other" <==> gender != "male" && gender != "female"
  {
    if gender == "male" then "Male"
    else if gender == "female" then "Female"
    else "Other"
  }

  class Card {
    const employeeId: string
    var deleteDialogOpen: bool
    /** The arguments `onDelete` was called with, oldest first. */
    var deleteCalls: seq<string>

    constructor (employeeId: string)
      ensures this.employeeId == employeeId && !deleteDialogOpen && deleteCalls == []
    {
      this.employeeId := employeeId;
      deleteDialogOpen := false;
      deleteCalls := [];
    }

    /** The menu's Remove item opens the confirmation. */
    method AskRemove()
      modifies this
      ensures deleteDialogOpen && deleteCalls == old(deleteCalls)
    {
      deleteDialogOpen := true;
    }

    /** The confirmation's Remove button: one `onDelete(employee.id)`, then the dialog closes. */
    method Confirm()
      modifies this
      ensures deleteCalls == old(deleteCalls) + [employeeId] && !deleteDialogOpen
    {
      deleteCalls := deleteCalls + [employeeId];
      deleteDialogOpen := false;
    }

    /** Cancel closes the dialog without calling `onDelete`. */
    method Cancel()
      modifies this
      ensures deleteCalls == old(deleteCalls) && !deleteDialogOpen
    {
      deleteDialogOpen := false;
    }
  }

  /** Stored genders: `male` and `female` get their own label, `neutral` reads as Other. */
  lemma StoredGenderLabels()
    ensures GenderLabel(GenderName(Male)) == "Male"
    ensures GenderLabel(GenderName(Female)) == "Female"
    ensures GenderLabel(GenderName(Neutral)) == "Other"
  {
  }
}
