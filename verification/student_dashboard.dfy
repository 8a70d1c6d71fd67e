/**
 * The student dashboard (src/app/dashboard/student/page.tsx): the summary
 * counts and the labels its cards, its timeline and its task list print.
 * The labels are nested conditionals of the page itself, not the tables of
 * src/lib/utils.ts, and the lemmas below show where the two disagree.
 */
module StudentDashboard {
  import opened Text
  import opened Seqs
  import opened Deadlines
  import opened Schema
  import ParentDashboard

  /** An application card, with the fields the page reads. */
  datatype StudentApplication = StudentApplication(
    id: string,
    universityName: string,
    applicationType: string,
    status: string,
    deadlineMs: int,
    priority: int)

  function IsSubmitted(): StudentApplication -> bool {
    (app: StudentApplication) => app.status == "submitted"
  }

  function IsUrgent(nowMs: int): StudentApplication -> bool {
    (app: StudentApplication) => DaysUntilDeadline(app.deadlineMs, nowMs) <= 7
  }

  // The student page computes its two counts with its own copies of the
  // parent page's expressions, so they are stated here again over its own rows.

  /** `submittedApplications`: never more than `totalApplications`, and equal to it exactly when all are submitted. */
  function SubmittedCount(apps: seq<StudentApplication>): (n: nat)
    ensures n <= |apps|
    ensures n == |apps| <==> forall i :: 0 <= i < |apps| ==> apps[i].status == "submitted"
  {
    CountAll(apps, IsSubmitted());
    Count(apps, IsSubmitted())
  }

  /** `urgentDeadlines`: never more than `totalApplications`, and equal to it exactly when every deadline is at most a week away. */
  function UrgentCount(apps: seq<StudentApplication>, nowMs: int): (n: nat)
    ensures n <= |apps|
    ensures n == |apps| <==> forall i :: 0 <= i < |apps| ==> DaysUntilDeadline(apps[i].deadlineMs, nowMs) <= 7
  {
    CountAll(apps, IsUrgent(nowMs));
    Count(apps, IsUrgent(nowMs))
  }

  /** A submitted application long before its deadline counts for the first figure but not the second. */
  lemma CountsAreIndependent(nowMs: int)
    ensures var apps := [StudentApplication("3", "MIT", "early_action", "submitted", nowMs + 30 * MsPerDay, 1)];
      SubmittedCount(apps) == 1 && UrgentCount(apps, nowMs) == 0
  {
    var apps := [StudentApplication("3", "MIT", "early_action", "submitted", nowMs + 30 * MsPerDay, 1)];
    assert Filter(apps, IsSubmitted()) == [apps[0]];
    assert Filter(apps, IsUrgent(nowMs)) == [];
  }

  /** The card subtitle: two named types, and "Regular Decision" for anything else. */
  function TypeLabel(t: string): (shown: string)
    ensures t == "early_action" ==> shown == "Early Action"
    ensures t == "early_decision" ==> shown == "Early Decision"
    ensures t != "early_action" && t != "early_decision" ==> shown == "Regular Decision"
  {
    if t == "early_action" then "Early Action"
    else if t == "early_decision" then "Early Decision"
    else "Regular Decision"
  }

  /**
   * The subtitle agrees with `formatApplicationType` on three of the four
   * schema types; a rolling-admission application is shown as regular decision.
   */
  lemma TypeLabelAgainstFormat(t: string)
    ensures t in {"early_action", "early_decision", "regular_decision"} ==> TypeLabel(t) == FormatApplicationType(t)
    ensures t == "rolling_admission" ==> TypeLabel(t) == "Regular Decision" != FormatApplicationType(t)
  {
  }

  /** The status badge on a card: three named statuses, any other status printed as stored. */
  function StatusBadgeLabel(status: string): (shown: string)
    ensures status == "not_started" ==> shown == "Not Started"
    ensures status == "in_progress" ==> shown == "In Progress"
    ensures status == "submitted" ==> shown == "Submitted"
    ensures status !in {"not_started", "in_progress", "submitted"} ==> shown == status
  {
    if status == "not_started" then "Not Started"
    else if status == "in_progress" then "In Progress"
    else if status == "submitted" then "Submitted"
    else status
  }

  // The timeline repeats the card's inline label and colour chains with its
  // own choice of cases, so each gets its own function.

  /** The timeline badge: two named statuses, and "Not Started" for any other. */
  function TimelineLabel(status: string): (shown: string)
    ensures status == "submitted" ==> shown == "Submitted"
    ensures status == "in_progress" ==> shown == "In Progress"
    ensures status != "submitted" && status != "in_progress" ==> shown == "Not Started"
  {
    if status == "submitted" then "Submitted"
    else if status == "in_progress" then "In Progress"
    else "Not Started"
  }

  /** The timeline dot: green when submitted, blue in progress, grey otherwise. */
  function TimelineDot(status: string): (color: string)
    ensures status == "submitted" ==> color == "bg-green-500"
    ensures status == "in_progress" ==> color == "bg-blue-500"
    ensures status != "submitted" && status != "in_progress" ==> color == "bg-gray-300"
  {
    if status == "submitted" then "bg-green-500"
    else if status == "in_progress" then "bg-blue-500"
    else "bg-gray-300"
  }

  /**
   * The dot is grey exactly when the timeline says "Not Started", and, over
   * the schema's statuses, the timeline and the card agree exactly on the
   * three the card names: "under_review" is printed as is on the card but
   * shown as not started on the timeline.
   */
  lemma TimelineAgainstCard(status: string, a: ApplicationStatus)
    ensures TimelineDot(status) == "bg-gray-300" <==> TimelineLabel(status) == "Not Started"
    ensures TimelineLabel(ApplicationStatusName(a)) == StatusBadgeLabel(ApplicationStatusName(a))
            <==> a in {NotStarted, InProgress, Submitted}
  {
  }

  /** The task badge: three named task types, any other type printed as stored. */
  function TaskTypeLabel(t: string): (shown: string)
    ensures t == "essay" ==> shown == "Essay"
    ensures t == "test_scores" ==> shown == "Test Scores"
    ensures t == "recommendation_letter" ==> shown == "Recommendation"
    ensures t !in {"essay", "test_scores", "recommendation_letter"} ==> shown == t
  {
    if t == "essay" then "Essay"
    else if t == "test_scores" then "Test Scores"
    else if t == "recommendation_letter" then "Recommendation"
    else t
  }

  /**
   * The task badge agrees with `formatRequirementType` on essays and test
   * scores only: it shortens recommendation letters and leaves the other
   * requirement types unformatted.
   */
  lemma TaskTypeAgainstFormat(t: string)
    ensures t in {"essay", "test_scores"} ==> TaskTypeLabel(t) == FormatRequirementType(t)
    ensures t in {"recommendation_letter", "transcript", "portfolio", "interview", "financial_aid"}
            ==> TaskTypeLabel(t) != FormatRequirementType(t)
  {
  }

  /** The days badge on a card: the day count and " days", whatever its sign. */
  function DaysBadge(days: int): string
  {
    IntToString(days) + " days"
  }

  /**
   * The card badge and the parent timeline badge agree exactly on future
   * deadlines: on the day of the deadline the card says "0 days", and after it
   * a negative count.
   */
  lemma DaysBadgeAgainstParent(days: int)
    ensures DaysBadge(days) == ParentDashboard.DaysBadge(days) <==> days > 0
  {
    if days <= 0 {
      var t := DaysBadge(days);
      assert t[|t| - 1] == 's';
      assert ParentDashboard.DaysBadge(days)[|ParentDashboard.DaysBadge(days)| - 1] != 's';
    }
  }
}
