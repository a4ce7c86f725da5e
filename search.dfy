/** The site-wide search hook (`useSearch`): a query that is blank after
    trimming gives no results; otherwise the entries of the search index whose
    title, description or category contains the lower-cased query, in index
    order. The 300 ms debounce and the `loading` flag are not modelled. */
module GlobalSearch {
  import opened Wrappers
  import opened Text
  import opened Filtering

  datatype EntryType = Module | Topic | Drug | Book | Calculator

  datatype SearchResult = SearchResult(
    id: string,
    title: string,
    entryType: EntryType,
    description: string,
    url: string,
    category: Option<string>)

  /** The predicate of the filter; `needle` is the already lower-cased query.
      A missing category (`item.category?.…`) never matches. */
  predicate EntryMatches(item: SearchResult, needle: string) {
    || Contains(Lower(item.title), needle)
    || Contains(Lower(item.description), needle)
    || (item.category.Some? && Contains(Lower(item.category.value), needle))
  }

  /** The results the hook settles on for `query` over the index `searchData`. */
  function Search(searchData: seq<SearchResult>, query: string): (results: seq<SearchResult>)
    ensures IsBlank(query) ==> results == []
    ensures !IsBlank(query) ==>
      && (forall item :: item in results ==> item in searchData && EntryMatches(item, Lower(query)))
      && (forall item :: item in searchData && EntryMatches(item, Lower(query)) ==> item in results)
      && SubseqOf(results, searchData)
      && (forall item :: item in searchData ==>
            multiset(results)[item] == if EntryMatches(item, Lower(query)) then multiset(searchData)[item] else 0)
  {
    TrimEmptyIffBlank(query);
    if Trim(query) == "" then []
    else
      var needle := Lower(query);
      FilterIsSubseq(searchData, item => EntryMatches(item, needle));
      Filter(searchData, item => EntryMatches(item, needle))
  }

  /** An entry without a category is found only through its title or description. */
  lemma UncategorisedMatchesTextOnly(data: seq<SearchResult>, query: string, item: SearchResult)
    requires item.category.None?
    requires item in Search(data, query)
    ensures Contains(Lower(item.title), Lower(query)) || Contains(Lower(item.description), Lower(query))
  {
  }

  /** Changing the case of letters in the query does not change the results. */
  lemma {:induction false} SearchIgnoresQueryCase(data: seq<SearchResult>, q1: string, q2: string)
    requires SameUpToCase(q1, q2)
    ensures Search(data, q1) == Search(data, q2)
  {
    SameUpToCaseKeepsBlank(q1, q2);
    TrimEmptyIffBlank(q1);
    TrimEmptyIffBlank(q2);
    FilterExtensional(data, item => EntryMatches(item, Lower(q1)), item => EntryMatches(item, Lower(q2)));
  }
}
