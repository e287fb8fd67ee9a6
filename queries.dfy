/**
 * What is sent with each request: the merge of the default chunk sizes
 * with the caller's parameters, and the rendering of a pagination clause.
 * The query templates themselves are not modelled; a request is the
 * parameter map that would be substituted into them.
 */
module Queries {

  import opened Wrappers
  import opened Responses
  import opened EdgeNormalizer

  type Params = map<string, string>

  /**
   * The outcome of a paginating loop, with the pagination state `C` that
   * each request it sent was built from, in order.
   */
  datatype Run<T, C> = Run(result: Outcome<T>, sent: seq<C>)

  /** A run whose first requests were built from `earlier`. */
  function Prepend<T, C>(earlier: seq<C>, later: Run<T, C>): Run<T, C> {
    Run(later.result, earlier + later.sent)
  }

  lemma PrependPrepend<T, C>(a: seq<C>, b: seq<C>, run: Run<T, C>)
    ensures Prepend(a, Prepend(b, run)) == Prepend(a + b, run)
  {
    assert a + (b + run.sent) == (a + b) + run.sent;
  }

  const ChunkKeys: set<string> := {"teams_chunk", "members_chunk", "invitations_chunk"}
  const DefaultChunk: string := "100"

  /** The parameters a query is expanded with: every chunk size defaults to "100" and the caller's values win. */
  function MergedParams(queryParams: Params): (merged: Params)
    ensures merged.Keys == ChunkKeys + queryParams.Keys
    ensures forall k :: k in queryParams ==> merged[k] == queryParams[k]
    ensures forall k :: k in ChunkKeys && k !in queryParams ==> merged[k] == DefaultChunk
  {
    map["teams_chunk" := DefaultChunk, "members_chunk" := DefaultChunk, "invitations_chunk" := DefaultChunk]
      + queryParams
  }

  /** The default-then-update merge done at the start of every request. */
  method MergeParams(queryParams: Params) returns (merged: Params)
    ensures merged == MergedParams(queryParams)
  {
    merged := map["teams_chunk" := DefaultChunk, "members_chunk" := DefaultChunk, "invitations_chunk" := DefaultChunk];
    merged := merged + queryParams;
  }

  const AfterPrefix: string := "after:\""
  const AfterSuffix: string := "\""

  /** No cursor renders as nothing; a cursor `c` renders as `after:"c"`. */
  function RenderPagination(cursor: Option<string>): (clause: string)
    ensures cursor.None? <==> clause == ""
    ensures cursor.Some? ==> |clause| == |AfterPrefix| + |cursor.value| + |AfterSuffix|
    ensures cursor.Some? ==> clause[..|AfterPrefix|] == AfterPrefix && clause[|clause| - 1..] == AfterSuffix
    ensures cursor.Some? ==> clause[|AfterPrefix|..|clause| - 1] == cursor.value
  {
    match cursor
    case None => ""
    case Some(c) => AfterPrefix + c + AfterSuffix
  }

  /** Distinct pagination states are sent as distinct clauses. */
  lemma RenderPaginationInjective(x: Option<string>, y: Option<string>)
    requires RenderPagination(x) == RenderPagination(y)
    ensures x == y
  {
    if x.Some? && y.Some? {
      var s := RenderPagination(x);
      assert x.value == s[|AfterPrefix|..|s| - 1] == y.value;
    }
  }

  /** The parameters of one organisation-wide request. */
  function BulkQueryParams(org: string, pagination: Option<string>): Params {
    MergedParams(map["orgname" := Lower(org), "teams_pagination" := RenderPagination(pagination)])
  }

  /** An organisation-wide request sends the lower-cased organisation, the clause and the default chunk sizes. */
  lemma BulkQueryParamsShape(org: string, pagination: Option<string>)
    ensures var p := BulkQueryParams(org, pagination);
            && p.Keys == ChunkKeys + {"orgname", "teams_pagination"}
            && (forall k :: k in ChunkKeys ==> p[k] == DefaultChunk)
            && p["orgname"] == Lower(org) && p["teams_pagination"] == RenderPagination(pagination)
  {
  }

  /**
   * The parameters of one single-team request. The organisation name is
   * passed as given; the team name is lower-cased.
   */
  function TeamQueryParams(org: string, team: string, members: Option<string>, invitations: Option<string>): Params {
    MergedParams(map["orgname" := org, "team_name" := Lower(team),
                     "members_pagination" := RenderPagination(members),
                     "invitations_pagination" := RenderPagination(invitations)])
  }

  /** A single-team request sends the organisation as given, the lower-cased team, both clauses and the default chunk sizes. */
  lemma TeamQueryParamsShape(org: string, team: string, members: Option<string>, invitations: Option<string>)
    ensures var p := TeamQueryParams(org, team, members, invitations);
            && p.Keys == ChunkKeys + {"orgname", "team_name", "members_pagination", "invitations_pagination"}
            && (forall k :: k in ChunkKeys ==> p[k] == DefaultChunk)
            && p["orgname"] == org && p["team_name"] == Lower(team)
            && p["members_pagination"] == RenderPagination(members)
            && p["invitations_pagination"] == RenderPagination(invitations)
  {
  }
}
