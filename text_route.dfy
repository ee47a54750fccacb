/**
 * `POST /api/search/text`: validates the query and answers with three canned
 * results that quote it; no backend is involved and `limit` is not read.
 */
module TextRoute {
  import opened Wrappers
  import opened Json
  import opened Routes

  const QueryRequired := "Query is required"
  const SearchFailed := "Failed to perform text search"

  const ResultMiddle := " for: \""
  const ResultLead := "Text search result "

  /**
   * The canned result number `k` for `query`: the lead, the number written
   * in decimal, then the query in quotes.
   */
  function ResultLine(k: nat, query: string): (line: string)
    ensures |line| > |ResultLead| + |NatText(k)| + |query|
    ensures line[..|ResultLead|] == ResultLead
    ensures line[|ResultLead|..|ResultLead| + |NatText(k)|] == NatText(k)
    ensures DigitsValue(line[|ResultLead|..|ResultLead| + |NatText(k)|]) == k
    ensures line[|line| - |query| - 1..] == query + "\""
  {
    var number, closing := NatText(k), query + "\"";
    var line := ResultLead + number + ResultMiddle + closing;
    Pieces(ResultLead, number, ResultMiddle + closing);
    Pieces(ResultLead + number, ResultMiddle, closing);
    line
  }

  /**
   * `{ results }`, the body of a successful answer: exactly three results,
   * result `k` (counting from 1) being line `k` for the query.
   */
  function ResultsBody(query: string): (j: Json)
    ensures j.JObject? && Get(j.members, "results").Value?
    ensures var results := Get(j.members, "results").v;
      && results.JArray? && |results.elems| == 3
      && forall k :: 0 <= k < 3 ==> results.elems[k] == JString(ResultLine(k + 1, query))
  {
    var members := [("results", JArray(seq(3, k requires 0 <= k => JString(ResultLine(k + 1, query)))))];
    assert members[..0] == [];
    JObject(members)
  }

  /**
   * The handler. The results are built with `${query}`; when that throws,
   * the `catch` answers 500 like an unreadable body.
   */
  function Post(req: Request): (r: Response)
    ensures r.status in {200, 400, 500}
    ensures r.status == 500 <==>
      || ReadField(req, "query") == None
      || (Truthy(ReadField(req, "query").value) && TextThrows(ReadField(req, "query").value.v))
    ensures r.status == 500 ==> r.body == ErrorBody(SearchFailed)
    ensures r.status == 400 <==> ReadField(req, "query").Some? && !Truthy(ReadField(req, "query").value)
    ensures r.status == 400 ==> r.body == ErrorBody(QueryRequired)
  {
    match ReadField(req, "query")
    case None => Response(500, ErrorBody(SearchFailed))
    case Some(query) =>
      if !Truthy(query) then Response(400, ErrorBody(QueryRequired))
      else
        match ToText(query.v)
        case None => Response(500, ErrorBody(SearchFailed))
        case Some(text) => Response(200, ResultsBody(text))
  }

  /**
   * A truthy query gets status 200 and the three results for its text, or
   * 500 when its text cannot be produced.
   */
  lemma ThreeResults(req: Request)
    requires ReadField(req, "query").Some? && Truthy(ReadField(req, "query").value)
    ensures var query := ReadField(req, "query").value.v;
      !TextThrows(query) ==> Post(req) == Response(200, ResultsBody(ToText(query).value))
    ensures TextThrows(ReadField(req, "query").value.v) ==> Post(req) == Response(500, ErrorBody(SearchFailed))
  {
  }

  /** A string query is quoted verbatim in every result line. */
  lemma StringQueryQuoted(members: seq<(string, Json)>, query: string)
    requires Get(members, "query") == Value(JString(query)) && query != ""
    ensures Post(Body(JObject(members))) == Response(200, ResultsBody(query))
  {
  }

  /** A query object with its own `toString` member makes the handler answer 500. */
  lemma ToStringQueryFails(members: seq<(string, Json)>)
    requires Get(members, "toString") != Undefined
    ensures Post(Body(JObject([("query", JObject(members))]))) == Response(500, ErrorBody(SearchFailed))
  {
  }

  /** The answer depends on the body only through its `query` member; `limit` and the rest are ignored. */
  lemma OnlyQueryMatters(m1: seq<(string, Json)>, m2: seq<(string, Json)>)
    requires Get(m1, "query") == Get(m2, "query")
    ensures Post(Body(JObject(m1))) == Post(Body(JObject(m2)))
  {
  }
}
