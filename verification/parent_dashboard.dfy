/**
 * The parent dashboard (src/app/dashboard/parent/page.tsx): the summary
 * figures over the selected child's applications, the deadline timeline and
 * the notes panel. Deadlines are integer milliseconds and the clock is a
 * parameter.
 */
module ParentDashboard {
  import opened Text
  import opened Seqs
  import opened Sorting
  import opened Deadlines

  /** One of the child's applications, with the fields the dashboard reads. */
  datatype ChildApplication = ChildApplication(
    id: string,
    universityName: string,
    status: string,
    deadlineMs: int,
    estimatedCost: int)

  function IsSubmitted(): ChildApplication -> bool {
    (app: ChildApplication) => app.status == "submitted"
  }

  /** Due within a week, counting overdue applications as well. */
  function IsUrgent(nowMs: int): ChildApplication -> bool {
    (app: ChildApplication) => DaysUntilDeadline(app.deadlineMs, nowMs) <= 7
  }

  /** The deadline status is overdue or urgent, the two most pressing buckets. */
  function IsPressing(nowMs: int): ChildApplication -> bool {
    (app: ChildApplication) => Rank(GetDeadlineStatus(app.deadlineMs, nowMs)) <= 1
  }

  function IsOverdue(nowMs: int): ChildApplication -> bool {
    (app: ChildApplication) => GetDeadlineStatus(app.deadlineMs, nowMs) == OverdueStatus
  }

  function EstimatedCost(): ChildApplication -> int {
    (app: ChildApplication) => app.estimatedCost
  }

  function Deadline(): ChildApplication -> int {
    (app: ChildApplication) => app.deadlineMs
  }

  /** `submittedApplications`: never more than `totalApplications`, and equal to it exactly when every application is submitted. */
  function SubmittedCount(apps: seq<ChildApplication>): (n: nat)
    ensures n <= |apps|
    ensures n == |apps| <==> forall i :: 0 <= i < |apps| ==> apps[i].status == "submitted"
  {
    CountAll(apps, IsSubmitted());
    Count(apps, IsSubmitted())
  }

  /** `urgentDeadlines`: the applications at most seven days from their deadline. */
  function UrgentCount(apps: seq<ChildApplication>, nowMs: int): (n: nat)
    ensures n <= |apps|
    ensures n == |apps| <==> forall i :: 0 <= i < |apps| ==> DaysUntilDeadline(apps[i].deadlineMs, nowMs) <= 7
  {
    CountAll(apps, IsUrgent(nowMs));
    Count(apps, IsUrgent(nowMs))
  }

  /** `totalEstimatedCost`: the costs added from the left, starting at 0. */
  function TotalEstimatedCost(apps: seq<ChildApplication>): int {
    Sum(apps, EstimatedCost())
  }

  /**
   * The urgent count is the number of applications whose deadline status is
   * overdue or urgent, so it never falls below the overdue count.
   */
  lemma UrgentMeansOverdueOrUrgent(apps: seq<ChildApplication>, nowMs: int)
    ensures UrgentCount(apps, nowMs) == Count(apps, IsPressing(nowMs))
    ensures Count(apps, IsOverdue(nowMs)) <= UrgentCount(apps, nowMs)
  {
    FilterExt(apps, IsUrgent(nowMs), IsPressing(nowMs));
    CountMonotone(apps, IsOverdue(nowMs), IsUrgent(nowMs));
  }

  /** With no negative cost the total is at least each single cost. */
  lemma {:induction false} TotalCostBounds(apps: seq<ChildApplication>)
    requires forall i :: 0 <= i < |apps| ==> apps[i].estimatedCost >= 0
    ensures TotalEstimatedCost(apps) >= 0
    ensures forall i :: 0 <= i < |apps| ==> apps[i].estimatedCost <= TotalEstimatedCost(apps)
  {
    if apps != [] {
      var init := apps[..|apps| - 1];
      TotalCostBounds(init);
      assert forall i :: 0 <= i < |init| ==> init[i] == apps[i];
    }
  }

  /** Reordering the applications changes none of the summary figures. */
  lemma FiguresIgnoreOrder(apps: seq<ChildApplication>, reordered: seq<ChildApplication>, nowMs: int)
    requires multiset(reordered) == multiset(apps)
    ensures SubmittedCount(reordered) == SubmittedCount(apps)
    ensures UrgentCount(reordered, nowMs) == UrgentCount(apps, nowMs)
    ensures TotalEstimatedCost(reordered) == TotalEstimatedCost(apps)
  {
    CountPermutation(reordered, apps, IsSubmitted());
    CountPermutation(reordered, apps, IsUrgent(nowMs));
    SumPermutation(reordered, apps, EstimatedCost());
  }

  /**
   * The timeline's `.sort`: reorders the child's applications in place by
   * ascending deadline; the summary figures are the same before and after.
   */
  method SortTimeline(apps: array<ChildApplication>, nowMs: int)
    modifies apps
    ensures SortedBy(apps[..], Deadline())
    ensures multiset(apps[..]) == multiset(old(apps[..]))
    ensures SubmittedCount(apps[..]) == SubmittedCount(old(apps[..]))
    ensures UrgentCount(apps[..], nowMs) == UrgentCount(old(apps[..]), nowMs)
    ensures TotalEstimatedCost(apps[..]) == TotalEstimatedCost(old(apps[..]))
  {
    SortByKey(apps, Deadline());
    FiguresIgnoreOrder(old(apps[..]), apps[..], nowMs);
  }

  /** The badge text beside each deadline. */
  function DaysBadge(days: int): (text: string)
    ensures days > 0 ==> text == IntToString(days) + " days"
    ensures days == 0 ==> text == "Today"
    ensures days < 0 ==> text == "Overdue"
  {
    if days > 0 then IntToString(days) + " days" else if days == 0 then "Today" else "Overdue"
  }

  /**
   * Badges tell deadlines apart: two future deadlines share a badge only when
   * they have the same day count, and a future badge is never "Today" or
   * "Overdue".
   */
  lemma DaysBadgeDistinguishes(d1: int, d2: int)
    requires d1 > 0
    ensures DaysBadge(d1) != "Today" && DaysBadge(d1) != "Overdue"
    ensures DaysBadge(d1) == DaysBadge(d2) ==> d1 == d2
  {
    var s1 := NatToString(d1);
    assert DaysBadge(d1) == s1 + " days";
    assert IsDigit(DaysBadge(d1)[0]);
    assert d2 <= 0 ==> !IsDigit(DaysBadge(d2)[0]);
    if DaysBadge(d1) == DaysBadge(d2) {
      var s2 := NatToString(d2);
      assert s1 + " days" == s2 + " days";
      assert s1 == s2 by {
        assert |s1| == |s2|;
        assert s1 == (s1 + " days")[..|s1|];
        assert s2 == (s2 + " days")[..|s2|];
      }
      ParseNatToString(d1);
      ParseNatToString(d2);
    }
  }

  /** The icon of a timeline entry. */
  datatype TimelineIcon = CheckIcon | AlertIcon | ClockIcon

  /** A check for a submitted application, otherwise an alert within a week of the deadline and a clock beyond it. */
  function Icon(app: ChildApplication, nowMs: int): (icon: TimelineIcon)
    ensures icon == CheckIcon <==> app.status == "submitted"
    ensures icon == AlertIcon <==> app.status != "submitted" && DaysUntilDeadline(app.deadlineMs, nowMs) <= 7
    ensures icon == ClockIcon <==> app.status != "submitted" && DaysUntilDeadline(app.deadlineMs, nowMs) > 7
  {
    if app.status == "submitted" then CheckIcon
    else if DaysUntilDeadline(app.deadlineMs, nowMs) <= 7 then AlertIcon
    else ClockIcon
  }

  /** The icon agrees with the summary: an unsubmitted application shows the alert exactly when it is counted as urgent. */
  lemma IconAgreesWithUrgent(app: ChildApplication, nowMs: int)
    requires app.status != "submitted"
    ensures Icon(app, nowMs) == AlertIcon <==> IsUrgent(nowMs)(app)
  {
  }

  /** The line under the badge. */
  function ProgressText(status: string): (text: string)
    ensures text == "Submitted" <==> status == "submitted"
    ensures text == "Pending" <==> status != "submitted"
  {
    if status == "submitted" then "Submitted" else "Pending"
  }

  /** A note of the notes panel. */
  datatype Note = Note(id: string, text: string, application: string, createdAt: string)

  /** The notes panel: the list shown and the text box. */
  class NotesPanel {
    var notes: seq<Note>
    var newNote: string

    constructor(initial: seq<Note>)
      ensures notes == initial && newNote == ""
    {
      notes := initial;
      newNote := "";
    }

    /** Typing in the text box. */
    method SetNewNote(text: string)
      modifies this
      ensures newNote == text && notes == old(notes)
    {
      newNote := text;
    }

    /**
     * `handleAddNote`, with `Date.now()` as `nowMs` and the ISO time as
     * `createdAt`. Blank text changes nothing; otherwise the note, with its
     * text as typed, goes in front of the old notes and the box is cleared.
     */
    method AddNote(nowMs: int, createdAt: string)
      modifies this
      ensures AllWhiteSpace(old(newNote)) ==> notes == old(notes) && newNote == old(newNote)
      ensures !AllWhiteSpace(old(newNote)) ==>
        && notes == [Note(IntToString(nowMs), old(newNote), "General Note", createdAt)] + old(notes)
        && newNote == ""
    {
      if Trim(newNote) != "" {
        var note := Note(IntToString(nowMs), newNote, "General Note", createdAt);
        notes := [note] + notes;
        newNote := "";
      }
    }
  }
}
