/**
 * The enumerations of the database schema (src/types/database.types.ts)
 * and the wire names the store and the pages exchange for them.
 */
module Schema {
  import opened Wrappers

  datatype Role = Student | Parent | Teacher | Admin

  /** The roles an account can be created with: sign-up and `profiles.create` accept only these two. */
  type AccountRole = r: Role | r == Student || r == Parent witness Student

  datatype ApplicationType = EarlyDecision | EarlyAction | RegularDecision | RollingAdmission

  function ApplicationTypeName(t: ApplicationType): string {
    match t
    case EarlyDecision => "early_decision"
    case EarlyAction => "early_action"
    case RegularDecision => "regular_decision"
    case RollingAdmission => "rolling_admission"
  }

  datatype ApplicationStatus = NotStarted | InProgress | Submitted | UnderReview | DecisionReceived

  function ApplicationStatusName(s: ApplicationStatus): string {
    match s
    case NotStarted => "not_started"
    case InProgress => "in_progress"
    case Submitted => "submitted"
    case UnderReview => "under_review"
    case DecisionReceived => "decision_received"
  }

  datatype DecisionType = Accepted | Rejected | Waitlisted | Deferred

  function DecisionTypeName(d: DecisionType): string {
    match d
    case Accepted => "accepted"
    case Rejected => "rejected"
    case Waitlisted => "waitlisted"
    case Deferred => "deferred"
  }

  datatype RequirementType = Essay | RecommendationLetter | Transcript | TestScores | Portfolio | Interview | FinancialAid

  function RequirementTypeName(t: RequirementType): string {
    match t
    case Essay => "essay"
    case RecommendationLetter => "recommendation_letter"
    case Transcript => "transcript"
    case TestScores => "test_scores"
    case Portfolio => "portfolio"
    case Interview => "interview"
    case FinancialAid => "financial_aid"
  }

  datatype RequirementStatus = ReqNotStarted | ReqInProgress | Completed | ReqSubmitted

  function RequirementStatusName(s: RequirementStatus): string {
    match s
    case ReqNotStarted => "not_started"
    case ReqInProgress => "in_progress"
    case Completed => "completed"
    case ReqSubmitted => "submitted"
  }

  /**
   * A row of the university catalogue, with the columns the search pages
   * read. `acceptanceRate` is in tenths of a percent (3.4% is 34): the pages
   * only compare it with thresholds.
   */
  datatype University = University(
    id: string,
    name: string,
    city: string,
    state: string,
    usNewsRanking: int,
    acceptanceRate: int,
    tuitionOutState: int,
    applicationSystem: string,
    popularMajors: seq<string>)
}
