/**
 * The "add application" page (src/app/dashboard/student/add-application/page.tsx):
 * the catalogue filter, its pagination, and the component state that the
 * search box, the filter selects, the pager and the application form update.
 */
module AddApplication {
  import opened Wrappers
  import opened Text
  import opened Seqs
  import opened Schema

  /** The four filter selects; the empty string means "all". */
  datatype Filters = Filters(state: string, ranking: string, acceptanceRate: string, major: string)

  const NoFilters := Filters("", "", "", "")

  predicate AnyMajorIncludes(u: University, term: string) {
    exists i | 0 <= i < |u.popularMajors| :: IncludesIgnoringCase(u.popularMajors[i], term)
  }

  /** The search box looks at the name, the city, the state and every popular major. */
  predicate MatchesSearch(u: University, term: string) {
    IncludesIgnoringCase(u.name, term) || IncludesIgnoringCase(u.city, term)
    || IncludesIgnoringCase(u.state, term) || AnyMajorIncludes(u, term)
  }

  predicate MatchesState(u: University, state: string) {
    state == "" || u.state == state
  }

  /** Only the three listed ranking values select anything; any other non-empty value selects nothing. */
  predicate MatchesRanking(u: University, ranking: string) {
    || ranking == ""
    || (ranking == "top10" && u.usNewsRanking <= 10)
    || (ranking == "top25" && u.usNewsRanking <= 25)
    || (ranking == "top50" && u.usNewsRanking <= 50)
  }

  /** Selectivity buckets on the acceptance rate in tenths of a percent: below 10%, 10% to 25%, 25% and up. */
  predicate InAcceptanceBucket(rate: int, bucket: string) {
    || (bucket == "low" && rate < 100)
    || (bucket == "medium" && 100 <= rate < 250)
    || (bucket == "high" && rate >= 250)
  }

  predicate MatchesAcceptance(u: University, bucket: string) {
    bucket == "" || InAcceptanceBucket(u.acceptanceRate, bucket)
  }

  predicate MatchesMajor(u: University, major: string) {
    major == "" || AnyMajorIncludes(u, major)
  }

  predicate Matches(u: University, term: string, f: Filters) {
    && MatchesSearch(u, term)
    && MatchesState(u, f.state)
    && MatchesRanking(u, f.ranking)
    && MatchesAcceptance(u, f.acceptanceRate)
    && MatchesMajor(u, f.major)
  }

  /**
   * `filteredUniversities`: the catalogue entries that pass the search and
   * every filter, in catalogue order.
   */
  function FilteredUniversities(catalogue: seq<University>, term: string, f: Filters): (r: seq<University>)
    ensures IsSubsequence(r, catalogue)
    ensures forall u :: u in r <==> u in catalogue && Matches(u, term, f)
  {
    FilterIsSubsequence(catalogue, u => Matches(u, term, f));
    Filter(catalogue, u => Matches(u, term, f))
  }

  /** With nothing typed and no filter chosen, the whole catalogue is listed. */
  lemma NoFiltersKeepAll(catalogue: seq<University>)
    ensures FilteredUniversities(catalogue, "", NoFilters) == catalogue
  {
    forall i | 0 <= i < |catalogue|
      ensures Matches(catalogue[i], "", NoFilters)
    {
      assert ToLower("") == "";
      IncludesEmpty(ToLower(catalogue[i].name));
    }
    FilterKeepsAll(catalogue, u => Matches(u, "", NoFilters));
  }

  /** The search ignores the case of the term: a term and its lower-case form select the same universities. */
  lemma SearchIgnoresCase(u: University, term: string)
    ensures MatchesSearch(u, term) <==> MatchesSearch(u, ToLower(term))
  {
    ToLowerIdempotent(term);
  }

  /** A ranking filter bounds the ranking of every listed university; an unknown ranking value lists none. */
  lemma RankingFilterBounds(catalogue: seq<University>, term: string, f: Filters)
    ensures f.ranking == "top10" ==> forall u :: u in FilteredUniversities(catalogue, term, f) ==> u.usNewsRanking <= 10
    ensures f.ranking == "top25" ==> forall u :: u in FilteredUniversities(catalogue, term, f) ==> u.usNewsRanking <= 25
    ensures f.ranking == "top50" ==> forall u :: u in FilteredUniversities(catalogue, term, f) ==> u.usNewsRanking <= 50
    ensures f.ranking !in {"", "top10", "top25", "top50"} ==> FilteredUniversities(catalogue, term, f) == []
  {
    if f.ranking !in {"", "top10", "top25", "top50"} {
      FilterNone(catalogue, u => Matches(u, term, f));
    }
  }

  /** Every acceptance rate lies in exactly one of the three selectivity buckets. */
  lemma AcceptanceBucketsPartition(rate: int)
    ensures InAcceptanceBucket(rate, "low") || InAcceptanceBucket(rate, "medium") || InAcceptanceBucket(rate, "high")
    ensures !(InAcceptanceBucket(rate, "low") && InAcceptanceBucket(rate, "medium"))
    ensures !(InAcceptanceBucket(rate, "low") && InAcceptanceBucket(rate, "high"))
    ensures !(InAcceptanceBucket(rate, "medium") && InAcceptanceBucket(rate, "high"))
  {
  }

  const ItemsPerPage: nat := 3

  /** `Math.ceil(n / itemsPerPage)`: the fewest pages of three that hold `n` items. */
  function TotalPages(n: nat): (pages: nat)
    ensures n <= pages * ItemsPerPage
    ensures pages == 0 || (pages - 1) * ItemsPerPage < n
  {
    (n + ItemsPerPage - 1) / ItemsPerPage
  }

  function Min(a: int, b: int): int {
    if a <= b then a else b
  }

  function Max(a: int, b: int): int {
    if a >= b then a else b
  }

  /**
   * `items.slice(startIndex, startIndex + itemsPerPage)` with
   * `startIndex = (page - 1) * itemsPerPage`: at most three items, the ones
   * at the page's positions, none once the page lies past the end.
   */
  function Page<T>(items: seq<T>, page: nat): (r: seq<T>)
    requires page >= 1
    ensures |r| <= ItemsPerPage
    ensures |r| == Min(ItemsPerPage, Max(|items| - (page - 1) * ItemsPerPage, 0))
    ensures forall i :: 0 <= i < |r| ==> r[i] == items[(page - 1) * ItemsPerPage + i]
  {
    var start := (page - 1) * ItemsPerPage;
    items[Min(start, |items|)..Min(start + ItemsPerPage, |items|)]
  }

  /** Pages `1..k` laid end to end. */
  function PagesUpTo<T>(items: seq<T>, k: nat): seq<T> {
    if k == 0 then [] else PagesUpTo(items, k - 1) + Page(items, k)
  }

  lemma {:induction false} PagesUpToIsPrefix<T>(items: seq<T>, k: nat)
    ensures PagesUpTo(items, k) == items[..Min(k * ItemsPerPage, |items|)]
  {
    if k > 0 {
      PagesUpToIsPrefix(items, k - 1);
      var lo := Min((k - 1) * ItemsPerPage, |items|);
      var hi := Min(k * ItemsPerPage, |items|);
      assert Page(items, k) == items[lo..hi];
      assert items[..lo] + items[lo..hi] == items[..hi];
    }
  }

  /** The pages the pager offers, read in order, are exactly the filtered list. */
  lemma PagesConcatenate<T>(items: seq<T>)
    ensures PagesUpTo(items, TotalPages(|items|)) == items
  {
    PagesUpToIsPrefix(items, TotalPages(|items|));
    assert items[..|items|] == items;
  }

  /** Every page the pager offers shows something, and any page after the last shows nothing. */
  lemma PagesInRange<T>(items: seq<T>, page: nat)
    requires page >= 1
    ensures Page(items, page) != [] <==> page <= TotalPages(|items|)
  {
  }

  /** Which of the two panels of the page is showing. */
  datatype Step = Browse | Apply

  /** `applicationData`: the fields of the application form. */
  datatype ApplicationForm = ApplicationForm(
    applicationType: string,
    priority: int,
    major: string,
    graduationYear: string,
    personalStatement: string,
    notes: string)

  const BlankForm := ApplicationForm("regular_decision", 1, "", "", "", "")

  const StudentDashboard := "/dashboard/student"

  /** The component state of the page. */
  class AddApplicationPage {
    const catalogue: seq<University>
    var selectedUniversity: Option<University>
    var searchTerm: string
    var currentStep: Step
    var currentPage: int
    var filters: Filters
    var applicationData: ApplicationForm

    /**
     * The pager stays on a page that exists: between one and the page
     * count, or on page one when nothing matches. Every filter change resets
     * the page to one and Next stops at the last page, so each handler keeps
     * this.
     */
    predicate Valid()
      reads this
    {
      1 <= currentPage <= Max(1, PageCount())
    }

    function Filtered(): seq<University>
      reads this
    {
      FilteredUniversities(catalogue, searchTerm, filters)
    }

    function PageCount(): nat
      reads this
    {
      TotalPages(|Filtered()|)
    }

    /** `paginatedUniversities`: the cards shown on the current page; some card is shown whenever anything matches. */
    function Shown(): (shown: seq<University>)
      requires Valid()
      reads this
      ensures |shown| <= ItemsPerPage
      ensures shown != [] <==> Filtered() != []
    {
      PagesInRange(Filtered(), currentPage);
      Page(Filtered(), currentPage)
    }

    constructor(catalogue: seq<University>)
      ensures Valid()
      ensures this.catalogue == catalogue && selectedUniversity == None && searchTerm == ""
      ensures currentStep == Browse && currentPage == 1 && filters == NoFilters && applicationData == BlankForm
      ensures Filtered() == catalogue
    {
      this.catalogue := catalogue;
      selectedUniversity := None;
      searchTerm := "";
      currentStep := Browse;
      currentPage := 1;
      filters := NoFilters;
      applicationData := BlankForm;
      NoFiltersKeepAll(catalogue);
    }

    /** Typing in the search box goes back to page one. */
    method SetSearchTerm(term: string)
      requires Valid()
      modifies this
      ensures Valid()
      ensures searchTerm == term && currentPage == 1
      ensures filters == old(filters) && selectedUniversity == old(selectedUniversity)
      ensures currentStep == old(currentStep) && applicationData == old(applicationData)
    {
      searchTerm := term;
      currentPage := 1;
    }

    /** The state, ranking and selectivity selects: "all" clears the filter; any choice goes back to page one. */
    method SetStateFilter(value: string)
      requires Valid()
      modifies this
      ensures Valid()
      ensures filters == old(filters).(state := if value == "all" then "" else value) && currentPage == 1
      ensures searchTerm == old(searchTerm) && selectedUniversity == old(selectedUniversity)
      ensures currentStep == old(currentStep) && applicationData == old(applicationData)
    {
      filters := filters.(state := if value == "all" then "" else value);
      currentPage := 1;
    }

    method SetRankingFilter(value: string)
      requires Valid()
      modifies this
      ensures Valid()
      ensures filters == old(filters).(ranking := if value == "all" then "" else value) && currentPage == 1
      ensures searchTerm == old(searchTerm) && selectedUniversity == old(selectedUniversity)
      ensures currentStep == old(currentStep) && applicationData == old(applicationData)
    {
      filters := filters.(ranking := if value == "all" then "" else value);
      currentPage := 1;
    }

    method SetAcceptanceFilter(value: string)
      requires Valid()
      modifies this
      ensures Valid()
      ensures filters == old(filters).(acceptanceRate := if value == "all" then "" else value) && currentPage == 1
      ensures searchTerm == old(searchTerm) && selectedUniversity == old(selectedUniversity)
      ensures currentStep == old(currentStep) && applicationData == old(applicationData)
    {
      filters := filters.(acceptanceRate := if value == "all" then "" else value);
      currentPage := 1;
    }

    /** The major box is free text, stored as typed. */
    method SetMajorFilter(value: string)
      requires Valid()
      modifies this
      ensures Valid()
      ensures filters == old(filters).(major := value) && currentPage == 1
      ensures searchTerm == old(searchTerm) && selectedUniversity == old(selectedUniversity)
      ensures currentStep == old(currentStep) && applicationData == old(applicationData)
    {
      filters := filters.(major := value);
      currentPage := 1;
    }

    /** `resetFilters`: clears every filter and the search term and returns to page one, so the whole catalogue is listed. */
    method ResetFilters()
      requires Valid()
      modifies this
      ensures Valid()
      ensures filters == NoFilters && searchTerm == "" && currentPage == 1
      ensures selectedUniversity == old(selectedUniversity)
      ensures currentStep == old(currentStep) && applicationData == old(applicationData)
      ensures Filtered() == catalogue
    {
      filters := NoFilters;
      searchTerm := "";
      currentPage := 1;
      NoFiltersKeepAll(catalogue);
    }

    /** The Previous button: one page back, never below the first. */
    method PreviousPage()
      requires Valid()
      modifies this
      ensures Valid()
      ensures currentPage == Max(old(currentPage) - 1, 1)
      ensures searchTerm == old(searchTerm) && filters == old(filters) && selectedUniversity == old(selectedUniversity)
      ensures currentStep == old(currentStep) && applicationData == old(applicationData)
    {
      currentPage := Max(currentPage - 1, 1);
    }

    /** The Next button, shown only when there is more than one page: one page on, never past the last. */
    method NextPage()
      requires Valid() && PageCount() > 1
      modifies this
      ensures Valid()
      ensures currentPage == Min(old(currentPage) + 1, old(PageCount())) && currentPage <= PageCount()
      ensures searchTerm == old(searchTerm) && filters == old(filters) && selectedUniversity == old(selectedUniversity)
      ensures currentStep == old(currentStep) && applicationData == old(applicationData)
    {
      currentPage := Min(currentPage + 1, PageCount());
    }

    /** A numbered page button. */
    method GoToPage(page: int)
      requires Valid() && 1 <= page <= PageCount()
      modifies this
      ensures Valid()
      ensures currentPage == page && Shown() != []
      ensures searchTerm == old(searchTerm) && filters == old(filters) && selectedUniversity == old(selectedUniversity)
      ensures currentStep == old(currentStep) && applicationData == old(applicationData)
    {
      currentPage := page;
      PagesInRange(Filtered(), page);
    }

    /** `handleSelectUniversity`: remembers the choice and opens the form. */
    method SelectUniversity(u: University)
      requires Valid()
      modifies this
      ensures Valid()
      ensures selectedUniversity == Some(u) && currentStep == Apply
      ensures searchTerm == old(searchTerm) && filters == old(filters) && currentPage == old(currentPage)
      ensures applicationData == old(applicationData)
    {
      selectedUniversity := Some(u);
      currentStep := Apply;
    }

    /** "Back to Browse": the selection is kept. */
    method BackToBrowse()
      requires Valid()
      modifies this
      ensures Valid()
      ensures currentStep == Browse
      ensures searchTerm == old(searchTerm) && filters == old(filters) && currentPage == old(currentPage)
      ensures selectedUniversity == old(selectedUniversity) && applicationData == old(applicationData)
    {
      currentStep := Browse;
    }

    /** Any of the form's inputs. */
    method EditForm(form: ApplicationForm)
      requires Valid()
      modifies this
      ensures Valid()
      ensures applicationData == form
      ensures searchTerm == old(searchTerm) && filters == old(filters) && currentPage == old(currentPage)
      ensures selectedUniversity == old(selectedUniversity) && currentStep == old(currentStep)
    {
      applicationData := form;
    }

    /**
     * `handleAddApplication`: without a selected university nothing happens;
     * with one, the form goes back to its blank values and the page
     * navigates to the student dashboard.
     */
    method AddApplication() returns (redirect: Option<string>)
      requires Valid()
      modifies this
      ensures Valid()
      ensures old(selectedUniversity).None? ==> redirect == None && applicationData == old(applicationData)
      ensures old(selectedUniversity).Some? ==> redirect == Some(StudentDashboard) && applicationData == BlankForm
      ensures searchTerm == old(searchTerm) && filters == old(filters) && currentPage == old(currentPage)
      ensures selectedUniversity == old(selectedUniversity) && currentStep == old(currentStep)
    {
      if selectedUniversity.Some? {
        applicationData := BlankForm;
        redirect := Some(StudentDashboard);
      } else {
        redirect := None;
      }
    }
  }
}
