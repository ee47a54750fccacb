/**
 * The search form: a query box that calls the similarity search or the text
 * search, depending on the form's `type`, and lists the results.
 */
module SearchForm {
  import opened Wrappers
  import opened JsText

  const EmptyQueryError := "Search query cannot be empty"
  const NoResultsError := "No results found for your query"
  const SearchError := "Search failed. Please try again."

  /** The client call a submission makes. */
  datatype SearchCall = SearchSimilar(query: string) | SearchByText(query: string)

  /** `type === "similarity"` selects the similarity search; any other type, the text search. */
  function CallFor(kind: string, query: string): (c: SearchCall)
    ensures c.query == query
    ensures c.SearchSimilar? <==> kind == "similarity"
  {
    if kind == "similarity" then SearchSimilar(query) else SearchByText(query)
  }

  class Form {
    const kind: string
    var query: string
    var results: seq<string>
    var isLoading: bool
    var error: Option<string>

    constructor (kind: string)
      ensures this.kind == kind && query == "" && results == [] && !isLoading && error == None
    {
      this.kind := kind;
      query, results, isLoading, error := "", [], false, None;
    }

    /**
     * Submits the query. `reply` is how the awaited search call settles.
     * Returns the call made, or `None` when the query is blank.
     */
    method HandleSubmit(reply: Outcome<seq<string>>) returns (call: Option<SearchCall>)
      modifies this`results, this`isLoading, this`error
      ensures call == if IsBlank(query) then None else Some(CallFor(kind, query))
      ensures IsBlank(query) ==>
        error == Some(EmptyQueryError) && results == old(results) && isLoading == old(isLoading)
      ensures !IsBlank(query) ==> !isLoading
      ensures !IsBlank(query) && reply.Ok? ==>
        && results == reply.value
        && error == if reply.value == [] then Some(NoResultsError) else None
      ensures !IsBlank(query) && reply.Fail? ==> results == old(results) && error == Some(SearchError)
    {
      if IsBlank(query) {
        error := Some(EmptyQueryError);
        return None;
      }
      isLoading := true;
      error := None;
      call := Some(CallFor(kind, query));
      match reply {
        case Ok(searchResults) =>
          results := searchResults;
          if |searchResults| == 0 {
            error := Some(NoResultsError);
          }
        case Fail =>
          error := Some(SearchError);
      }
      isLoading := false;
    }
  }
}
