/**
 * The table rows the core reads and writes, and the closed enumerations of
 * the database schema (employee level, role, expertise and gender).
 * Timestamps are integers (milliseconds); identifiers are strings.
 */
module Rows {
  import opened Base

  datatype Level = Junior | Senior
  datatype OrgRole = EmployeeRole | Manager
  datatype Expertise = HR | MarketingDesign | Technology | Finance | GtmMarketAnalysis | ReportPolishing
  datatype Gender = Male | Female | Neutral

  /** The stored text of each expertise value. */
  function ExpertiseName(e: Expertise): string {
    match e
    case HR => "HR"
    case MarketingDesign => "Marketing & Design"
    case Technology => "Technology"
    case Finance => "Finance"
    case GtmMarketAnalysis => "GTM & Market Analysis"
    case ReportPolishing => "Report Polishing"
  }

  function GenderName(g: Gender): string {
    match g
    case Male => "male"
    case Female => "female"
    case Neutral => "neutral"
  }

  function LevelName(l: Level): string {
    match l
    case Junior => "junior"
    case Senior => "senior"
  }

  function RoleName(r: OrgRole): string {
    match r
    case EmployeeRole => "employee"
    case Manager => "manager"
  }

  /** A row of the `employees` table; `deletedAt` is the soft-delete marker. */
  datatype EmployeeRow = EmployeeRow(
    id: string,
    userId: string,
    name: string,
    gender: Gender,
    expertise: Expertise,
    level: Level,
    role: OrgRole,
    avatarUrl: Option<string>,
    deletedAt: Option<int>,
    createdAt: int)

  /**
   * A row of the `tasks` table. The priority is a free string (the board reads
   * it as nullable); the status is an open string.
   */
  datatype TaskRow = TaskRow(
    id: string,
    title: string,
    description: Option<string>,
    priority: Option<string>,
    status: string,
    createdBy: string,
    assignedEmployeeId: Option<string>,
    createdAt: int,
    completedAt: Option<int>)

  /** A row of the `conversations` table; `employeeId` refers to `employees.id`. */
  datatype ConversationRow = ConversationRow(id: string, employeeId: string, createdAt: int)
}
