/**
 * Deadline arithmetic and the label tables of src/lib/utils.ts.
 * Dates are integer milliseconds since the epoch; the current time is a
 * parameter instead of `new Date()`.
 */
module Deadlines {
  import opened Schema

  /** `1000 * 60 * 60 * 24`. */
  const MsPerDay: int := 86400000

  /**
   * `getDaysUntilDeadline`: `Math.ceil((deadline - now) / MsPerDay)`, the
   * unique `days` with `(days - 1) * MsPerDay < deadline - now <= days * MsPerDay`.
   */
  function DaysUntilDeadline(deadlineMs: int, nowMs: int): (days: int)
    ensures (days - 1) * MsPerDay < deadlineMs - nowMs <= days * MsPerDay
  {
    -((nowMs - deadlineMs) / MsPerDay)
  }

  /** The ceiling bounds pin `days` down: no other integer satisfies them. */
  lemma DaysUntilDeadlineUnique(deadlineMs: int, nowMs: int, days: int)
    requires (days - 1) * MsPerDay < deadlineMs - nowMs <= days * MsPerDay
    ensures days == DaysUntilDeadline(deadlineMs, nowMs)
  {
  }

  /** Result of `getDeadlineStatus`: the bucket name and its text colour class. */
  datatype DeadlineStatus = DeadlineStatus(status: string, color: string)

  const OverdueStatus := DeadlineStatus("overdue", "text-red-600")
  const UrgentStatus := DeadlineStatus("urgent", "text-orange-600")
  const UpcomingStatus := DeadlineStatus("upcoming", "text-yellow-600")
  const FutureStatus := DeadlineStatus("future", "text-gray-600")

  /** The if-chain of `getDeadlineStatus` on a day count: four disjoint ranges that cover every integer. */
  function StatusForDays(days: int): (r: DeadlineStatus)
    ensures r == OverdueStatus <==> days < 0
    ensures r == UrgentStatus <==> 0 <= days <= 7
    ensures r == UpcomingStatus <==> 8 <= days <= 30
    ensures r == FutureStatus <==> days > 30
  {
    if days < 0 then OverdueStatus
    else if days <= 7 then UrgentStatus
    else if days <= 30 then UpcomingStatus
    else FutureStatus
  }

  /**
   * `getDeadlineStatus`, stated on the time left in milliseconds: a deadline
   * is overdue only once a whole day has passed (half a day late still
   * rounds up to day 0, which is urgent).
   */
  function GetDeadlineStatus(deadlineMs: int, nowMs: int): (r: DeadlineStatus)
    ensures r == OverdueStatus <==> deadlineMs - nowMs <= -MsPerDay
    ensures r == UrgentStatus <==> -MsPerDay < deadlineMs - nowMs <= 7 * MsPerDay
    ensures r == UpcomingStatus <==> 7 * MsPerDay < deadlineMs - nowMs <= 30 * MsPerDay
    ensures r == FutureStatus <==> 30 * MsPerDay < deadlineMs - nowMs
  {
    StatusForDays(DaysUntilDeadline(deadlineMs, nowMs))
  }

  /** Position of a bucket from most to least pressing. */
  function Rank(r: DeadlineStatus): nat {
    if r == OverdueStatus then 0
    else if r == UrgentStatus then 1
    else if r == UpcomingStatus then 2
    else 3
  }

  /** More days left never moves a deadline to a more pressing bucket. */
  lemma StatusMonotone(d1: int, d2: int)
    requires d1 <= d2
    ensures Rank(StatusForDays(d1)) <= Rank(StatusForDays(d2))
  {
  }

  /** A later deadline (or an earlier clock) never has fewer days left. */
  lemma DaysMonotone(deadline1: int, deadline2: int, nowMs: int)
    requires deadline1 <= deadline2
    ensures DaysUntilDeadline(deadline1, nowMs) <= DaysUntilDeadline(deadline2, nowMs)
  {
    var d1 := DaysUntilDeadline(deadline1, nowMs);
    var d2 := DaysUntilDeadline(deadline2, nowMs);
    assert (d1 - 1) * MsPerDay < d2 * MsPerDay;
  }

  const DefaultStatusColor := "bg-gray-100 text-gray-800"

  const StatusColors: map<string, string> := map[
    "not_started" := "bg-gray-100 text-gray-800",
    "in_progress" := "bg-blue-100 text-blue-800",
    "submitted" := "bg-green-100 text-green-800",
    "under_review" := "bg-yellow-100 text-yellow-800",
    "decision_received" := "bg-purple-100 text-purple-800",
    "accepted" := "bg-green-100 text-green-800",
    "rejected" := "bg-red-100 text-red-800",
    "waitlisted" := "bg-orange-100 text-orange-800",
    "deferred" := "bg-blue-100 text-blue-800",
    "completed" := "bg-green-100 text-green-800"
  ]

  /** `getStatusColor`: the class listed for each of the ten known statuses, the grey class for any other string. */
  function GetStatusColor(status: string): (c: string)
    ensures status == "not_started" ==> c == "bg-gray-100 text-gray-800"
    ensures status == "in_progress" ==> c == "bg-blue-100 text-blue-800"
    ensures status == "submitted" ==> c == "bg-green-100 text-green-800"
    ensures status == "under_review" ==> c == "bg-yellow-100 text-yellow-800"
    ensures status == "decision_received" ==> c == "bg-purple-100 text-purple-800"
    ensures status == "accepted" ==> c == "bg-green-100 text-green-800"
    ensures status == "rejected" ==> c == "bg-red-100 text-red-800"
    ensures status == "waitlisted" ==> c == "bg-orange-100 text-orange-800"
    ensures status == "deferred" ==> c == "bg-blue-100 text-blue-800"
    ensures status == "completed" ==> c == "bg-green-100 text-green-800"
    ensures (status !in {"not_started", "in_progress", "submitted", "under_review", "decision_received",
                         "accepted", "rejected", "waitlisted", "deferred", "completed"})
            ==> c == "bg-gray-100 text-gray-800"
  {
    if status in StatusColors && StatusColors[status] != "" then StatusColors[status] else DefaultStatusColor
  }

  /** Every status of an application, a decision and a requirement has an entry of its own in the colour table. */
  lemma StatusColorsCoverSchema(a: ApplicationStatus, d: DecisionType, q: RequirementStatus)
    ensures ApplicationStatusName(a) in StatusColors
    ensures DecisionTypeName(d) in StatusColors
    ensures RequirementStatusName(q) in StatusColors
  {
  }

  const ApplicationTypeLabels: map<string, string> := map[
    "early_decision" := "Early Decision",
    "early_action" := "Early Action",
    "regular_decision" := "Regular Decision",
    "rolling_admission" := "Rolling Admission"
  ]

  /** `formatApplicationType`: the label of each of the four types; any other string comes back unchanged. */
  function FormatApplicationType(t: string): (shown: string)
    ensures t == "early_decision" ==> shown == "Early Decision"
    ensures t == "early_action" ==> shown == "Early Action"
    ensures t == "regular_decision" ==> shown == "Regular Decision"
    ensures t == "rolling_admission" ==> shown == "Rolling Admission"
    ensures t !in {"early_decision", "early_action", "regular_decision", "rolling_admission"} ==> shown == t
  {
    if t in ApplicationTypeLabels && ApplicationTypeLabels[t] != "" then ApplicationTypeLabels[t] else t
  }

  /** Labels are not keys, so formatting a formatted type changes nothing. */
  lemma FormatApplicationTypeIdempotent(t: string)
    ensures FormatApplicationType(FormatApplicationType(t)) == FormatApplicationType(t)
  {
  }

  const RequirementTypeLabels: map<string, string> := map[
    "essay" := "Essay",
    "recommendation_letter" := "Recommendation Letter",
    "transcript" := "Transcript",
    "test_scores" := "Test Scores",
    "portfolio" := "Portfolio",
    "interview" := "Interview",
    "financial_aid" := "Financial Aid"
  ]

  /** `formatRequirementType`: the label of each of the seven types; any other string comes back unchanged. */
  function FormatRequirementType(t: string): (shown: string)
    ensures t == "essay" ==> shown == "Essay"
    ensures t == "recommendation_letter" ==> shown == "Recommendation Letter"
    ensures t == "transcript" ==> shown == "Transcript"
    ensures t == "test_scores" ==> shown == "Test Scores"
    ensures t == "portfolio" ==> shown == "Portfolio"
    ensures t == "interview" ==> shown == "Interview"
    ensures t == "financial_aid" ==> shown == "Financial Aid"
    ensures (t !in {"essay", "recommendation_letter", "transcript", "test_scores", "portfolio",
                    "interview", "financial_aid"})
            ==> shown == t
  {
    if t in RequirementTypeLabels && RequirementTypeLabels[t] != "" then RequirementTypeLabels[t] else t
  }

  /** Each schema type gets a label different from its wire name, for applications and for requirements alike. */
  lemma LabelsCoverSchema(a: ApplicationType, q: RequirementType)
    ensures FormatApplicationType(ApplicationTypeName(a)) != ApplicationTypeName(a)
    ensures FormatRequirementType(RequirementTypeName(q)) != RequirementTypeName(q)
  {
  }
}
