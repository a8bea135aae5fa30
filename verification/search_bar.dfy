/**
 * The global search bar: the term being typed, the category chips, the
 * list of recent searches, and the advanced filters (date range, file
 * types, tax status).
 */
module SearchBar {
  import opened Common
  import opened Text

  datatype SearchCategory = AllCategories | Files | Clients | Bookkeeping
  datatype DateRange = AllTime | Today | ThisWeek | ThisMonth | ThisQuarter | ThisYear
  datatype TaxStatusFilter = AllStatuses | NotStarted | Processing | AlmostReady | Completed

  const MaxRecentSearches: nat := 5
  const InitialRecentSearches: seq<string> := ["Q2 tax returns", "Smith Enterprises", "Expense receipts"]

  /** The recent-search list after submitting `term`: a term already in
      the list (compared untrimmed) leaves it alone, a new one goes to the
      front and the list keeps its first five entries. */
  function RememberSearch(term: string, recent: seq<string>): (r: seq<string>)
    ensures term in r
    ensures term in recent ==> r == recent
    ensures term !in recent ==> |r| == if |recent| < MaxRecentSearches then |recent| + 1 else MaxRecentSearches
    ensures term !in recent ==> r[0] == term && r[1..] == recent[..|r| - 1]
  {
    if term in recent then recent
    else
      var longer := [term] + recent;
      var r := if |longer| <= MaxRecentSearches then longer else longer[..MaxRecentSearches];
      assert r[0] == term;
      r
  }

  /** A short list without repeats stays short and without repeats. */
  lemma RememberSearchKeepsInvariant(term: string, recent: seq<string>)
    requires |recent| <= MaxRecentSearches && NoDuplicates(recent)
    ensures |RememberSearch(term, recent)| <= MaxRecentSearches
    ensures NoDuplicates(RememberSearch(term, recent))
  {
    var r := RememberSearch(term, recent);
    if term !in recent {
      forall i, j | 0 <= i < j < |r| ensures r[i] != r[j] {
        assert r[j] == recent[j - 1];
        if i > 0 {
          assert r[i] == recent[i - 1];
        }
      }
    }
  }

  /** `prev.filter(t => t !== type)` or `[...prev, type]`. */
  function ToggleMember(s: seq<string>, t: string): (r: seq<string>)
    ensures t in r <==> t !in s
    ensures forall x :: x != t ==> (x in r <==> x in s)
  {
    if t in s then Filter(NotEqualTo(t), s) else s + [t]
  }

  /** Toggling keeps every other entry in its relative order, and an absent
      entry is appended at the end. */
  lemma ToggleKeepsOthers(s: seq<string>, t: string)
    ensures Filter(NotEqualTo(t), ToggleMember(s, t)) == Filter(NotEqualTo(t), s)
    ensures t !in s ==> ToggleMember(s, t) == s + [t]
  {
    var p := NotEqualTo(t);
    if t in s {
      FilterIdempotent(p, s);
    } else {
      FilterAppend(p, s, [t]);
      assert Filter(p, [t]) == [];
    }
  }

  /** Ticking an unticked type and unticking it again restores the list. */
  lemma ToggleTwiceRestores(s: seq<string>, t: string)
    requires t !in s
    ensures ToggleMember(ToggleMember(s, t), t) == s
  {
    ToggleKeepsOthers(s, t);
    ToggleKeepsOthers(s + [t], t);
    RemoveAbsent(t, s);
  }

  /** Removing a recent search keeps the rest, in order, without repeats. */
  lemma RemoveKeepsInvariant(recent: seq<string>, search: string)
    requires |recent| <= MaxRecentSearches && NoDuplicates(recent)
    ensures |Filter(NotEqualTo(search), recent)| <= MaxRecentSearches
    ensures NoDuplicates(Filter(NotEqualTo(search), recent))
    ensures IsSubsequence(Filter(NotEqualTo(search), recent), recent)
  {
    FilterIsSubsequence(NotEqualTo(search), recent);
    FilterCount(NotEqualTo(search), recent);
    var r := Filter(NotEqualTo(search), recent);
    forall i, j | 0 <= i < j < |r| ensures r[i] != r[j] {
      if r[i] == r[j] {
        MultisetAtLeastTwo(r, i, j);
        MultisetOfDistinct(recent, r[i]);
        assert false;
      }
    }
  }

  /** Two equal entries count twice in the multiset. */
  lemma MultisetAtLeastTwo(s: seq<string>, i: nat, j: nat)
    requires i < j < |s| && s[i] == s[j]
    ensures multiset(s)[s[i]] >= 2
  {
    assert s == s[..i] + [s[i]] + s[i + 1..j] + [s[j]] + s[j + 1..];
  }

  /** In a list without repeats every value counts at most once. */
  lemma {:induction false} MultisetOfDistinct(s: seq<string>, x: string)
    requires NoDuplicates(s)
    ensures multiset(s)[x] <= 1
  {
    if s != [] {
      assert NoDuplicates(s[1..]) by {
        forall k, l | 0 <= k < l < |s[1..]| ensures s[1..][k] != s[1..][l] {
          assert s[1..][k] == s[k + 1] && s[1..][l] == s[l + 1];
        }
      }
      MultisetOfDistinct(s[1..], x);
      assert s == [s[0]] + s[1..];
      if s[0] == x {
        assert x !in s[1..] by {
          forall k | 0 <= k < |s[1..]| ensures s[1..][k] != x {
            assert s[1..][k] == s[k + 1];
          }
        }
      }
    }
  }

  /** The dot on the filter button and the "active filters" panel: shown
      exactly when some filter differs from the value Reset restores. */
  predicate FiltersActive(fileTypes: seq<string>, dateRange: DateRange, taxStatus: TaxStatusFilter): (active: bool)
    ensures active <==> (fileTypes, dateRange, taxStatus) != ([], AllTime, AllStatuses)
  {
    |fileTypes| > 0 || dateRange != AllTime || taxStatus != AllStatuses
  }

  class SearchBarState {
    var isExpanded: bool
    var searchTerm: string
    var selectedCategory: SearchCategory
    var recentSearches: seq<string>
    var filtersOpen: bool
    var dateRange: DateRange
    var fileTypes: seq<string>
    var taxStatus: TaxStatusFilter

    /** The recent-search list is short and has no repeats. */
    ghost predicate Valid()
      reads this
    {
      |recentSearches| <= MaxRecentSearches && NoDuplicates(recentSearches)
    }

    constructor ()
      ensures Valid()
      ensures !isExpanded && searchTerm == "" && selectedCategory == AllCategories
      ensures recentSearches == InitialRecentSearches
      ensures !filtersOpen && dateRange == AllTime && fileTypes == [] && taxStatus == AllStatuses
    {
      isExpanded := false;
      searchTerm := "";
      selectedCategory := AllCategories;
      recentSearches := InitialRecentSearches;
      filtersOpen := false;
      dateRange := AllTime;
      fileTypes := [];
      taxStatus := AllStatuses;
    }

    method HandleFocus()
      modifies this
      ensures isExpanded
      ensures searchTerm == old(searchTerm) && recentSearches == old(recentSearches)
      ensures fileTypes == old(fileTypes) && dateRange == old(dateRange) && taxStatus == old(taxStatus)
      ensures selectedCategory == old(selectedCategory) && filtersOpen == old(filtersOpen)
    {
      isExpanded := true;
    }

    /** The input's `onChange`. */
    method SetSearchTerm(text: string)
      modifies this
      ensures searchTerm == text
      ensures isExpanded == old(isExpanded) && recentSearches == old(recentSearches)
      ensures fileTypes == old(fileTypes) && dateRange == old(dateRange) && taxStatus == old(taxStatus)
      ensures selectedCategory == old(selectedCategory) && filtersOpen == old(filtersOpen)
    {
      searchTerm := text;
    }

    /** Submitting the form. A blank term changes nothing; otherwise the
        term is remembered and the dropdown closes. */
    method HandleSearch()
      requires Valid()
      modifies this
      ensures Valid()
      ensures IsBlank(old(searchTerm)) ==>
        isExpanded == old(isExpanded) && recentSearches == old(recentSearches)
      ensures !IsBlank(old(searchTerm)) ==>
        !isExpanded && recentSearches == RememberSearch(old(searchTerm), old(recentSearches))
      ensures searchTerm == old(searchTerm) && selectedCategory == old(selectedCategory)
      ensures fileTypes == old(fileTypes) && dateRange == old(dateRange) && taxStatus == old(taxStatus)
      ensures filtersOpen == old(filtersOpen)
    {
      TrimEmptyIffBlank(searchTerm);
      if Trim(searchTerm) == [] {
        return;
      }
      if searchTerm !in recentSearches && |searchTerm| > 0 {
        RememberSearchKeepsInvariant(searchTerm, recentSearches);
        recentSearches := RememberSearch(searchTerm, recentSearches);
      }
      isExpanded := false;
    }

    method HandleCategorySelect(category: SearchCategory)
      modifies this
      ensures selectedCategory == category
      ensures isExpanded == old(isExpanded) && searchTerm == old(searchTerm)
      ensures recentSearches == old(recentSearches) && filtersOpen == old(filtersOpen)
      ensures fileTypes == old(fileTypes) && dateRange == old(dateRange) && taxStatus == old(taxStatus)
    {
      selectedCategory := category;
    }

    /** The clear button: empties the term and nothing else. */
    method ClearSearch()
      modifies this
      ensures searchTerm == ""
      ensures isExpanded == old(isExpanded) && selectedCategory == old(selectedCategory)
      ensures recentSearches == old(recentSearches) && filtersOpen == old(filtersOpen)
      ensures fileTypes == old(fileTypes) && dateRange == old(dateRange) && taxStatus == old(taxStatus)
    {
      searchTerm := "";
    }

    /** Clicking a recent search puts it in the box and closes the dropdown. */
    method HandleRecentSearchClick(search: string)
      modifies this
      ensures searchTerm == search && !isExpanded
      ensures selectedCategory == old(selectedCategory)
      ensures recentSearches == old(recentSearches) && filtersOpen == old(filtersOpen)
      ensures fileTypes == old(fileTypes) && dateRange == old(dateRange) && taxStatus == old(taxStatus)
    {
      searchTerm := search;
      isExpanded := false;
    }

    /** The cross beside a recent search deletes every copy of it. */
    method RemoveRecentSearch(search: string)
      requires Valid()
      modifies this
      ensures Valid()
      ensures recentSearches == Filter(NotEqualTo(search), old(recentSearches))
      ensures isExpanded == old(isExpanded) && searchTerm == old(searchTerm)
      ensures selectedCategory == old(selectedCategory) && filtersOpen == old(filtersOpen)
      ensures fileTypes == old(fileTypes) && dateRange == old(dateRange) && taxStatus == old(taxStatus)
    {
      RemoveKeepsInvariant(recentSearches, search);
      recentSearches := Filter(NotEqualTo(search), recentSearches);
    }

    method ToggleFileType(t: string)
      modifies this
      ensures fileTypes == ToggleMember(old(fileTypes), t)
      ensures isExpanded == old(isExpanded) && searchTerm == old(searchTerm)
      ensures selectedCategory == old(selectedCategory) && recentSearches == old(recentSearches)
      ensures filtersOpen == old(filtersOpen) && dateRange == old(dateRange) && taxStatus == old(taxStatus)
    {
      fileTypes := if t in fileTypes then Filter(NotEqualTo(t), fileTypes) else fileTypes + [t];
    }

    method SetDateRange(range: DateRange)
      modifies this
      ensures dateRange == range
      ensures isExpanded == old(isExpanded) && searchTerm == old(searchTerm)
      ensures selectedCategory == old(selectedCategory) && recentSearches == old(recentSearches)
      ensures filtersOpen == old(filtersOpen) && fileTypes == old(fileTypes) && taxStatus == old(taxStatus)
    {
      dateRange := range;
    }

    method SetTaxStatus(status: TaxStatusFilter)
      modifies this
      ensures taxStatus == status
      ensures isExpanded == old(isExpanded) && searchTerm == old(searchTerm)
      ensures selectedCategory == old(selectedCategory) && recentSearches == old(recentSearches)
      ensures filtersOpen == old(filtersOpen) && fileTypes == old(fileTypes) && dateRange == old(dateRange)
    {
      taxStatus := status;
    }

    /** The popover's own open/close requests (`onOpenChange`). */
    method SetFiltersOpen(open: bool)
      modifies this
      ensures filtersOpen == open
      ensures isExpanded == old(isExpanded) && searchTerm == old(searchTerm)
      ensures selectedCategory == old(selectedCategory) && recentSearches == old(recentSearches)
      ensures fileTypes == old(fileTypes) && dateRange == old(dateRange) && taxStatus == old(taxStatus)
    {
      filtersOpen := open;
    }

    /** The "Apply Filters" button: it closes the popover; the filters
        themselves already took effect as they were chosen. */
    method ApplyFilters()
      modifies this
      ensures !filtersOpen
      ensures isExpanded == old(isExpanded) && searchTerm == old(searchTerm)
      ensures selectedCategory == old(selectedCategory) && recentSearches == old(recentSearches)
      ensures fileTypes == old(fileTypes) && dateRange == old(dateRange) && taxStatus == old(taxStatus)
      ensures FiltersActive(fileTypes, dateRange, taxStatus) == old(FiltersActive(fileTypes, dateRange, taxStatus))
    {
      filtersOpen := false;
    }

    /** The Reset button of the advanced filters. */
    method ResetFilters()
      modifies this
      ensures fileTypes == [] && dateRange == AllTime && taxStatus == AllStatuses
      ensures !FiltersActive(fileTypes, dateRange, taxStatus)
      ensures isExpanded == old(isExpanded) && searchTerm == old(searchTerm)
      ensures selectedCategory == old(selectedCategory) && recentSearches == old(recentSearches)
      ensures filtersOpen == old(filtersOpen)
    {
      fileTypes := [];
      dateRange := AllTime;
      taxStatus := AllStatuses;
    }
  }

  /** Submitting the same new term twice remembers it once, at the front;
      a blank term is never remembered. */
  method SearchScenario(term: string)
    returns (first: seq<string>, second: seq<string>, blank: seq<string>)
    ensures !IsBlank(term) ==> term in first && |first| <= MaxRecentSearches && second == first
    ensures !IsBlank(term) && term !in InitialRecentSearches ==> first == [term] + InitialRecentSearches
    ensures IsBlank(term) ==> first == InitialRecentSearches
    ensures blank == InitialRecentSearches
  {
    var bar := new SearchBarState();
    bar.SetSearchTerm(term);
    bar.HandleSearch();
    first := bar.recentSearches;
    bar.HandleSearch();
    second := bar.recentSearches;
    var other := new SearchBarState();
    other.SetSearchTerm(" \t ");
    other.HandleSearch();
    blank := other.recentSearches;
  }
}
