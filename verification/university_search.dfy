/**
 * The university search page (src/app/universities/page.tsx): the effect
 * that recomputes the visible list through five optional filters, the
 * favourites toggle, the option lists of the two selects, and the reset
 * button.
 */
module UniversitySearch {
  import opened Text
  import opened Seqs
  import opened Schema

  /**
   * The filter panel. The numeric fields are switched off at their sentinel
   * values (ranking 100, acceptance 0%, tuition 100000), the text fields when
   * empty. `acceptanceRateMin` is a whole percentage, as the slider gives it.
   */
  datatype SearchFilters = SearchFilters(
    state: string,
    rankingMax: int,
    acceptanceRateMin: int,
    tuitionMax: int,
    applicationSystem: string)

  const DefaultFilters := SearchFilters("", 100, 0, 100000, "")

  /** The search box looks at the name, the city and the state; majors are not searched. */
  predicate MatchesSearch(u: University, term: string) {
    IncludesIgnoringCase(u.name, term) || IncludesIgnoringCase(u.city, term) || IncludesIgnoringCase(u.state, term)
  }

  predicate StateOk(u: University, f: SearchFilters) {
    f.state != "" ==> u.state == f.state
  }

  predicate RankingOk(u: University, f: SearchFilters) {
    f.rankingMax < 100 ==> u.usNewsRanking <= f.rankingMax
  }

  /** The rate is kept in tenths of a percent, the threshold in whole percent. */
  predicate AcceptanceOk(u: University, f: SearchFilters) {
    f.acceptanceRateMin > 0 ==> u.acceptanceRate >= 10 * f.acceptanceRateMin
  }

  predicate TuitionOk(u: University, f: SearchFilters) {
    f.tuitionMax < 100000 ==> u.tuitionOutState <= f.tuitionMax
  }

  predicate SystemOk(u: University, f: SearchFilters) {
    f.applicationSystem != "" ==> u.applicationSystem == f.applicationSystem
  }

  /** The search and the first `k` filters of the chain, in the order the effect applies them. */
  predicate PassesFirst(u: University, term: string, f: SearchFilters, k: nat) {
    && MatchesSearch(u, term)
    && (k >= 1 ==> StateOk(u, f))
    && (k >= 2 ==> RankingOk(u, f))
    && (k >= 3 ==> AcceptanceOk(u, f))
    && (k >= 4 ==> TuitionOk(u, f))
    && (k >= 5 ==> SystemOk(u, f))
  }

  predicate Passes(u: University, term: string, f: SearchFilters) {
    PassesFirst(u, term, f, 5)
  }

  /** The test of the search and the first `k` filters, as a value the chain's lemmas can share. */
  function Stage(term: string, f: SearchFilters, k: nat): University -> bool {
    u => PassesFirst(u, term, f, k)
  }

  /** What the page should list: the universities that pass the search and every active filter, in their order. */
  function SearchResults(universities: seq<University>, term: string, f: SearchFilters): seq<University> {
    Filter(universities, Stage(term, f, 5))
  }

  /** The results keep the catalogue order, and each satisfies every active filter. */
  lemma ResultsSound(universities: seq<University>, term: string, f: SearchFilters)
    ensures IsSubsequence(SearchResults(universities, term, f), universities)
    ensures forall u :: u in SearchResults(universities, term, f) ==>
      && u in universities
      && MatchesSearch(u, term)
      && (f.state != "" ==> u.state == f.state)
      && (f.rankingMax < 100 ==> u.usNewsRanking <= f.rankingMax)
      && (f.acceptanceRateMin > 0 ==> u.acceptanceRate >= 10 * f.acceptanceRateMin)
      && (f.tuitionMax < 100000 ==> u.tuitionOutState <= f.tuitionMax)
      && (f.applicationSystem != "" ==> u.applicationSystem == f.applicationSystem)
    ensures forall u :: u in universities && Passes(u, term, f) ==> u in SearchResults(universities, term, f)
  {
    FilterIsSubsequence(universities, Stage(term, f, 5));
  }

  /**
   * At the default filters and an empty search everything is listed, even a
   * university ranked below 100th or with a tuition above 100000.
   */
  lemma DefaultsListEverything(universities: seq<University>)
    ensures SearchResults(universities, "", DefaultFilters) == universities
  {
    forall i | 0 <= i < |universities|
      ensures Passes(universities[i], "", DefaultFilters)
    {
      assert ToLower("") == "";
      IncludesEmpty(ToLower(universities[i].name));
    }
    FilterKeepsAll(universities, Stage("", DefaultFilters, 5));
  }

  /** The sentinel switches the ranking filter off: a rank above 100 still passes at `rankingMax = 100`. */
  lemma RankingSentinel(u: University, term: string, f: SearchFilters)
    requires f.rankingMax == 100 && u.usNewsRanking > 100
    ensures Passes(u, term, f) <==> Passes(u.(usNewsRanking := 1), term, f)
  {
  }

  /** Majors play no part in the search: changing them never changes whether a university is listed. */
  lemma MajorsNotSearched(u: University, majors: seq<string>, term: string, f: SearchFilters)
    ensures Passes(u, term, f) <==> Passes(u.(popularMajors := majors), term, f)
  {
  }

  /** Whether filter `k + 1` of the chain is switched on. */
  predicate On(f: SearchFilters, k: nat) {
    if k == 0 then f.state != ""
    else if k == 1 then f.rankingMax < 100
    else if k == 2 then f.acceptanceRateMin > 0
    else if k == 3 then f.tuitionMax < 100000
    else f.applicationSystem != ""
  }

  /** The test of filter `k + 1`, as the effect writes it when the filter is on. */
  function Keep(f: SearchFilters, k: nat): University -> bool {
    if k == 0 then (u: University) => u.state == f.state
    else if k == 1 then (u: University) => u.usNewsRanking <= f.rankingMax
    else if k == 2 then (u: University) => u.acceptanceRate >= 10 * f.acceptanceRateMin
    else if k == 3 then (u: University) => u.tuitionOutState <= f.tuitionMax
    else (u: University) => u.applicationSystem == f.applicationSystem
  }

  /**
   * Step `k` of the effect's chain: `filtered`, which holds the result of the
   * search and the first `k` filters, is narrowed by filter `k + 1` when that
   * filter is on and kept otherwise.
   */
  lemma ChainStep(universities: seq<University>, term: string, f: SearchFilters, k: nat)
    requires k < 5
    ensures On(f, k) ==> Filter(Filter(universities, Stage(term, f, k)), Keep(f, k)) == Filter(universities, Stage(term, f, k + 1))
    ensures !On(f, k) ==> Filter(universities, Stage(term, f, k)) == Filter(universities, Stage(term, f, k + 1))
  {
    if On(f, k) {
      Narrow(universities, Stage(term, f, k), Keep(f, k), Stage(term, f, k + 1));
    } else {
      FilterExt(universities, Stage(term, f, k), Stage(term, f, k + 1));
    }
  }

  /**
   * One `if (filters.x) filtered = filtered.filter(...)` of the effect:
   * given the result of the search and the first `k` filters, gives the
   * result of the first `k + 1`.
   */
  method NarrowBy(universities: seq<University>, term: string, f: SearchFilters, k: nat, filtered: seq<University>)
    returns (next: seq<University>)
    requires k < 5 && filtered == Filter(universities, Stage(term, f, k))
    ensures next == Filter(universities, Stage(term, f, k + 1))
  {
    ChainStep(universities, term, f, k);
    next := filtered;
    if On(f, k) {
      next := Filter(filtered, Keep(f, k));
    }
  }

  /**
   * The body of the page's effect: the search, then each active filter in
   * turn (state, ranking, acceptance rate, tuition, application system),
   * narrowing `filtered` step by step. The result is the one filter by the
   * conjunction of the search and the active filters.
   */
  method FilterChain(universities: seq<University>, term: string, f: SearchFilters) returns (filtered: seq<University>)
    ensures filtered == SearchResults(universities, term, f)
  {
    var bySearch := (u: University) => MatchesSearch(u, term);
    filtered := Filter(universities, bySearch);
    FilterExt(universities, bySearch, Stage(term, f, 0));
    filtered := NarrowBy(universities, term, f, 0, filtered);
    filtered := NarrowBy(universities, term, f, 1, filtered);
    filtered := NarrowBy(universities, term, f, 2, filtered);
    filtered := NarrowBy(universities, term, f, 3, filtered);
    filtered := NarrowBy(universities, term, f, 4, filtered);
  }

  /** `id => id !== universityId`. */
  function Other(id: string): string -> bool {
    x => x != id
  }

  /**
   * `toggleFavorite`'s updater: removes `id` if it is a favourite, appends it
   * otherwise. `id` is a favourite afterwards exactly when it was not before,
   * and the other favourites keep their order.
   */
  function ToggleFavorite(prev: seq<string>, id: string): (next: seq<string>)
    ensures id in next <==> id !in prev
    ensures id !in prev ==> next == prev + [id]
    ensures Filter(next, Other(id)) == Filter(prev, Other(id))
  {
    if id in prev then
      Narrow(prev, Other(id), Other(id), Other(id));
      Filter(prev, Other(id))
    else
      FilterAppend(prev, [id], Other(id));
      assert Filter([id], Other(id)) == [];
      prev + [id]
  }

  /** Toggling keeps the favourites free of duplicates. */
  lemma ToggleKeepsNoDuplicates(prev: seq<string>, id: string)
    requires NoDuplicates(prev)
    ensures NoDuplicates(ToggleFavorite(prev, id))
  {
    if id in prev {
      FilterNoDuplicates(prev, Other(id));
    }
  }

  /**
   * Toggling the same id twice gives back the original list when the id was
   * not a favourite; when it was, the id comes back at the end of the list,
   * so the list is restored only if it was already last.
   */
  lemma ToggleTwice(prev: seq<string>, id: string)
    requires NoDuplicates(prev)
    ensures id !in prev ==> ToggleFavorite(ToggleFavorite(prev, id), id) == prev
    ensures id in prev ==> ToggleFavorite(ToggleFavorite(prev, id), id) == Filter(prev, Other(id)) + [id]
    ensures id in prev && prev[|prev| - 1] == id ==> ToggleFavorite(ToggleFavorite(prev, id), id) == prev
  {
    if id !in prev {
      RemoveAfterAppend(prev, id);
    } else {
      var once := ToggleFavorite(prev, id);
      assert id !in once;
      if prev[|prev| - 1] == id {
        RemoveLast(prev, id);
      }
    }
  }

  /** Removing the id that ends a duplicate-free list and appending it again gives back the list. */
  lemma RemoveLast(prev: seq<string>, id: string)
    requires NoDuplicates(prev) && prev != [] && prev[|prev| - 1] == id
    ensures Filter(prev, Other(id)) + [id] == prev
  {
    var init := prev[..|prev| - 1];
    assert prev == init + [id];
    assert id !in init;
    RemoveAfterAppend(init, id);
  }

  /** Removing an id just appended to a list that lacked it gives back the list. */
  lemma RemoveAfterAppend(s: seq<string>, id: string)
    requires id !in s
    ensures Filter(s + [id], Other(id)) == s
  {
    assert forall i :: 0 <= i < |s| ==> Other(id)(s[i]);
    FilterKeepsAll(s, Other(id));
    FilterAppend(s, [id], Other(id));
    assert Filter([id], Other(id)) == [];
  }

  /** Toggling twice does not always restore the list: toggling "1" in ["1", "2"] twice gives ["2", "1"]. */
  lemma ToggleTwiceReorders()
    ensures ToggleFavorite(ToggleFavorite(["1", "2"], "1"), "1") == ["2", "1"]
  {
    var once := ToggleFavorite(["1", "2"], "1");
    assert "1" in ["1", "2"];
    assert Filter(["2"], Other("1")) == ["2"];
    assert Filter(["1", "2"], Other("1")) == Filter(["2"], Other("1"));
    assert once == ["2"];
  }

  /** `universities.map(uni => uni.state)`. */
  function States(universities: seq<University>): (r: seq<string>)
    ensures |r| == |universities|
    ensures forall i :: 0 <= i < |r| ==> r[i] == universities[i].state
  {
    seq(|universities|, i requires 0 <= i < |universities| => universities[i].state)
  }

  /** `universities.map(uni => uni.application_system)`. */
  function ApplicationSystems(universities: seq<University>): (r: seq<string>)
    ensures |r| == |universities|
    ensures forall i :: 0 <= i < |r| ==> r[i] == universities[i].applicationSystem
  {
    seq(|universities|, i requires 0 <= i < |universities| => universities[i].applicationSystem)
  }

  /** `uniqueStates`: each state of the catalogue once, in order of first appearance. */
  function UniqueStates(universities: seq<University>): (r: seq<string>)
    ensures NoDuplicates(r)
    ensures forall i :: 0 <= i < |universities| ==> universities[i].state in r
    ensures forall i :: 0 <= i < |r| ==> exists j :: 0 <= j < |universities| && universities[j].state == r[i]
    ensures forall i, j :: 0 <= i < j < |r| ==> FirstIndex(States(universities), r[i]) < FirstIndex(States(universities), r[j])
  {
    var states := States(universities);
    var r := Dedupe(states);
    assert forall i :: 0 <= i < |universities| ==> universities[i].state == states[i];
    r
  }

  /** `uniqueApplicationSystems`: each application system of the catalogue once, in order of first appearance. */
  function UniqueApplicationSystems(universities: seq<University>): (r: seq<string>)
    ensures NoDuplicates(r)
    ensures forall i :: 0 <= i < |universities| ==> universities[i].applicationSystem in r
    ensures forall i :: 0 <= i < |r| ==> exists j :: 0 <= j < |universities| && universities[j].applicationSystem == r[i]
    ensures forall i, j :: 0 <= i < j < |r| ==>
      FirstIndex(ApplicationSystems(universities), r[i]) < FirstIndex(ApplicationSystems(universities), r[j])
  {
    var systems := ApplicationSystems(universities);
    var r := Dedupe(systems);
    assert forall i :: 0 <= i < |universities| ==> universities[i].applicationSystem == systems[i];
    r
  }

  /** The component state of the page. */
  class UniversitySearchPage {
    const universities: seq<University>
    var filteredUniversities: seq<University>
    var searchTerm: string
    var favorites: seq<string>
    var filters: SearchFilters

    /** The list on screen is the one the effect computes from the search term and the filters. */
    predicate Valid()
      reads this
    {
      filteredUniversities == SearchResults(universities, searchTerm, filters)
    }

    constructor(universities: seq<University>)
      ensures Valid()
      ensures this.universities == universities && filteredUniversities == universities
      ensures searchTerm == "" && favorites == [] && filters == DefaultFilters
    {
      this.universities := universities;
      filteredUniversities := universities;
      searchTerm := "";
      favorites := [];
      filters := DefaultFilters;
      DefaultsListEverything(universities);
    }

    /** The effect: recomputes the list and stores it. */
    method ApplyFilters()
      modifies this
      ensures Valid()
      ensures searchTerm == old(searchTerm) && filters == old(filters) && favorites == old(favorites)
    {
      filteredUniversities := FilterChain(universities, searchTerm, filters);
    }

    /** Typing in the search box; the effect then runs again. */
    method SetSearchTerm(term: string)
      modifies this
      ensures Valid()
      ensures searchTerm == term && filters == old(filters) && favorites == old(favorites)
    {
      searchTerm := term;
      ApplyFilters();
    }

    /** One of the five filter inputs (`setFilters(prev => ({...prev, field: value}))`); the effect then runs again. */
    method SetFilters(f: SearchFilters)
      modifies this
      ensures Valid()
      ensures filters == f && searchTerm == old(searchTerm) && favorites == old(favorites)
    {
      filters := f;
      ApplyFilters();
    }

    /** The Reset button restores the default filters; the search term is kept. */
    method ResetFilters()
      modifies this
      ensures Valid()
      ensures filters == DefaultFilters && searchTerm == old(searchTerm) && favorites == old(favorites)
    {
      filters := DefaultFilters;
      ApplyFilters();
    }

    /** The heart button. */
    method ToggleFavoriteOf(id: string)
      requires Valid()
      modifies this
      ensures Valid()
      ensures favorites == ToggleFavorite(old(favorites), id)
      ensures id in favorites <==> id !in old(favorites)
      ensures searchTerm == old(searchTerm) && filters == old(filters) && filteredUniversities == old(filteredUniversities)
    {
      favorites := ToggleFavorite(favorites, id);
    }
  }
}
