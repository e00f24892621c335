/** The search dialog (src/components/search-overlay.tsx): a case-insensitive substring
    search over the records of the search index. */
module SearchOverlay {
  import opened Common
  import opened JsString
  import opened SearchIndex
  import Seqs

  /** The filter callback of `handleSearch`, for an already lower-cased query: the title, the
      snippet or, when there is one, the category slug contains it, ignoring case. */
  predicate MatchesQuery(a: SearchRecord, lowered: string) {
    || Includes(ToLowerCase(a.title), lowered)
    || Includes(ToLowerCase(a.contentSnippet), lowered)
    || (a.categorySlug.Some? && Includes(ToLowerCase(a.categorySlug.value), lowered))
  }

  function Matching(lowered: string): SearchRecord -> bool {
    (a: SearchRecord) => MatchesQuery(a, lowered)
  }

  /** The result list `handleSearch(query)` stores. */
  function Search(all: seq<SearchRecord>, query: string): seq<SearchRecord> {
    var lowered := ToLowerCase(query);
    if lowered == "" then [] else Seqs.Filter(all, Matching(lowered))
  }

  /** An empty query finds nothing; otherwise the results are exactly the records matching
      the lower-cased query, in their order in the index. */
  lemma SearchIsExact(all: seq<SearchRecord>, query: string)
    ensures query == "" ==> Search(all, query) == []
    ensures query != "" ==>
      forall a :: a in Search(all, query) <==> a in all && MatchesQuery(a, ToLowerCase(query))
    ensures Seqs.IsSubsequence(Search(all, query), all)
    ensures query != "" ==> |Search(all, query)| == Seqs.Count(all, Matching(ToLowerCase(query)))
  {
    ToLowerCaseEmptyIff(query);
    if query != "" {
      Seqs.FilterIsSubsequence(all, Matching(ToLowerCase(query)));
      Seqs.FilterMembers(all, Matching(ToLowerCase(query)));
      Seqs.FilterLength(all, Matching(ToLowerCase(query)));
    }
  }

  /** A record without a category slug is found only through its title or snippet. */
  lemma NoCategoryMatchesByText(all: seq<SearchRecord>, query: string, a: SearchRecord)
    requires a in Search(all, query) && a.categorySlug.None?
    ensures Includes(ToLowerCase(a.title), ToLowerCase(query))
            || Includes(ToLowerCase(a.contentSnippet), ToLowerCase(query))
  {
    Seqs.FilterMembers(all, Matching(ToLowerCase(query)));
  }

  /** The search only sees the query's lower-case form: two queries with the same lower-case
      form give the same results. */
  lemma SearchIgnoresCase(all: seq<SearchRecord>, q1: string, q2: string)
    requires ToLowerCase(q1) == ToLowerCase(q2)
    ensures Search(all, q1) == Search(all, q2)
  {
  }

  /** The dialog's state; `isOpen` stands for the parent's flag that `onClose` clears. */
  class SearchDialog {
    var searchQuery: string
    var searchResults: seq<SearchRecord>
    var allArticles: seq<SearchRecord>
    var isOpen: bool

    constructor(isOpen: bool)
      ensures searchQuery == "" && searchResults == [] && allArticles == [] && this.isOpen == isOpen
    {
      searchQuery := "";
      searchResults := [];
      allArticles := [];
      this.isOpen := isOpen;
    }

    /** The load effect: the index is stored, or nothing changes when loading it fails. */
    method LoadSearchData(response: Result<seq<SearchRecord>>)
      modifies this
      ensures allArticles == if response.Ok? then response.value else old(allArticles)
      ensures searchQuery == old(searchQuery) && searchResults == old(searchResults) && isOpen == old(isOpen)
    {
      if response.Ok? {
        allArticles := response.value;
      }
    }

    /** Typing into the input. */
    method SetQuery(query: string)
      modifies this
      ensures searchQuery == query
      ensures searchResults == old(searchResults) && allArticles == old(allArticles) && isOpen == old(isOpen)
    {
      searchQuery := query;
    }

    /** `handleSearch(query)`, which the debounced effect calls with the current query. */
    method HandleSearch(query: string)
      modifies this
      ensures searchResults == Search(old(allArticles), query)
      ensures searchQuery == old(searchQuery) && allArticles == old(allArticles) && isOpen == old(isOpen)
    {
      var lowercasedQuery := ToLowerCase(query);
      if lowercasedQuery == "" {
        searchResults := [];
        return;
      }
      var filtered := Seqs.Filter(allArticles, Matching(lowercasedQuery));
      searchResults := filtered;
    }

    /** `handleResultClick`: the dialog closes and the query is cleared. */
    method HandleResultClick()
      modifies this
      ensures !isOpen && searchQuery == ""
      ensures searchResults == old(searchResults) && allArticles == old(allArticles)
    {
      isOpen := false;
      searchQuery := "";
    }

    /** The "no results" message. */
    predicate ShowsNoResults()
      reads this
    {
      searchQuery != "" && |searchResults| == 0
    }

    /** The results are up to date with the query. */
    predicate Settled()
      reads this
    {
      searchResults == Search(allArticles, searchQuery)
    }
  }

  /** Once the results are up to date, the "no results" message shows exactly when the query
      is non-empty and no record matches it. */
  lemma NoResultsIff(d: SearchDialog)
    requires d.Settled()
    ensures d.ShowsNoResults() <==>
      d.searchQuery != "" && forall a :: a in d.allArticles ==> !MatchesQuery(a, ToLowerCase(d.searchQuery))
  {
    SearchIsExact(d.allArticles, d.searchQuery);
    if d.searchQuery != "" && !d.ShowsNoResults() {
      var a := d.searchResults[0];
      assert a in d.searchResults;
    }
  }
}
