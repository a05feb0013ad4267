/**
 * The create-employee dialog (src/components/CreateEmployeeDialog.tsx):
 * the three fields, the check before the insert, the insert payload and what
 * success and failure leave behind.
 */
module CreateEmployeeDialog {
  import opened Base
  import opened Rows

  /** `EXPERTISE_OPTIONS` */
  const ExpertiseOptions: seq<string> :=
    ["HR", "Marketing & Design", "Technology", "Finance", "GTM & Market Analysis", "Report Polishing"]

  /** The values of `GENDER_OPTIONS`. */
  const GenderOptions: seq<string> := ["male", "female", "neutral"]

  const MissingFields: string := "Please fill in all fields"
  const CreateFailed: string := "Failed to create employee"

  /** The object passed to `.insert(...)`: level and role are left to the table's defaults. */
  datatype EmployeeInsert = EmployeeInsert(userId: string, name: string, gender: string, expertise: string)

  /** `!name.trim() || !gender || !expertise` turned around. */
  predicate Complete(name: string, gender: string, expertise: string) {
    Trim(name) != "" && gender != "" && expertise != ""
  }

  /** The success toast: `${name} is ready to help you.`, with the name as typed. */
  function ReadyToast(name: string): string {
    name + " is ready to help you."
  }

  class Dialog {
    var open: bool
    var name: string
    var gender: string
    var expertise: string
    var loading: bool
    /** The toasts shown, oldest first. */
    var toasts: seq<string>

    constructor (open: bool)
      ensures this.open == open && name == "" && gender == "" && expertise == "" && !loading && toasts == []
    {
      this.open := open;
      name := "";
      gender := "";
      expertise := "";
      loading := false;
      toasts := [];
    }

    /** Typing a name and picking a gender and an expertise. */
    method Fill(name: string, gender: string, expertise: string)
      modifies this
      ensures this.name == name && this.gender == gender && this.expertise == expertise
      ensures open == old(open) && loading == old(loading) && toasts == old(toasts)
    {
      this.name := name;
      this.gender := gender;
      this.expertise := expertise;
    }

    /**
     * `handleCreate` (src/components/CreateEmployeeDialog.tsx:51-91).
     * `inserted` is the insert made, if any; `insertError` the message of
     * the error it returned.
     */
    method HandleCreate(userId: string, insertError: Option<string>) returns (inserted: Option<EmployeeInsert>)
      modifies this
      ensures !Complete(old(name), old(gender), old(expertise)) ==>
        inserted == None && toasts == old(toasts) + [MissingFields] &&
        name == old(name) && gender == old(gender) && expertise == old(expertise) &&
        open == old(open) && loading == old(loading)
      ensures Complete(old(name), old(gender), old(expertise)) ==>
        inserted == Some(EmployeeInsert(userId, Trim(old(name)), old(gender), old(expertise))) && !loading &&
        match insertError
        case None =>
          name == "" && gender == "" && expertise == "" && !open &&
          toasts == old(toasts) + [ReadyToast(old(name))]
        case Some(e) =>
          name == old(name) && gender == old(gender) && expertise == old(expertise) && open == old(open) &&
          toasts == old(toasts) + [ErrorText(e, CreateFailed)]
    {
      if !Complete(name, gender, expertise) {
        toasts := toasts + [MissingFields];
        return None;
      }
      loading := true;
      inserted := Some(EmployeeInsert(userId, Trim(name), gender, expertise));
      if insertError.Some? {
        toasts := toasts + [ErrorText(insertError.value, CreateFailed)];
      } else {
        toasts := toasts + [ReadyToast(name)];
        name := "";
        gender := "";
        expertise := "";
        open := false;
      }
      loading := false;
    }
  }

  /** The expertise choices are exactly the six stored expertise values, and the gender choices the three genders. */
  lemma OptionsAreEnums()
    ensures |ExpertiseOptions| == 6
    ensures forall e: Expertise :: ExpertiseName(e) in ExpertiseOptions
    ensures forall i :: 0 <= i < |ExpertiseOptions| ==> exists e: Expertise :: ExpertiseName(e) == ExpertiseOptions[i]
    ensures forall g: Gender :: GenderName(g) in GenderOptions
    ensures forall i :: 0 <= i < |GenderOptions| ==> exists g: Gender :: GenderName(g) == GenderOptions[i]
  {
    assert ExpertiseName(HR) == ExpertiseOptions[0];
    assert ExpertiseName(MarketingDesign) == ExpertiseOptions[1];
    assert ExpertiseName(Technology) == ExpertiseOptions[2];
    assert ExpertiseName(Finance) == ExpertiseOptions[3];
    assert ExpertiseName(GtmMarketAnalysis) == ExpertiseOptions[4];
    assert ExpertiseName(ReportPolishing) == ExpertiseOptions[5];
    assert GenderName(Male) == GenderOptions[0];
    assert GenderName(Female) == GenderOptions[1];
    assert GenderName(Neutral) == GenderOptions[2];
  }

  /**
   * A whitespace-only name is refused whatever else is chosen; an accepted
   * name is stored without its surrounding white space.
   */
  lemma BlankNameRefused(name: string, gender: string, expertise: string)
    ensures AllSpace(name) ==> !Complete(name, gender, expertise)
    ensures Complete(name, gender, expertise) ==>
      var stored := Trim(name);
      stored != "" && !IsJsSpace(stored[0]) && !IsJsSpace(stored[|stored| - 1])
  {
    TrimEmptyIff(name);
    TrimEdges(name);
  }
}
