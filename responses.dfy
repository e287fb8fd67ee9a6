/**
 * The already-parsed shapes of the GraphQL responses the fetcher reads, the
 * transport's replies, and the errors that abort a run.
 */
module Responses {

  import opened Wrappers

  /** The `invitee` object of an invitation node. */
  datatype Invitee = Invitee(login: Option<string>)

  /**
   * The `node` object of one user edge. A member node carries `login`; an
   * invitation node carries `invitee`. A key that is absent is `None`.
   */
  datatype Node = Node(login: Option<string>, invitee: Option<Invitee>)

  /** One user edge: `{ node { ... } }`. */
  datatype Edge = Edge(node: Node)

  datatype PageInfo = PageInfo(endCursor: string, hasNextPage: bool)

  /** One page of a paginated user field (`members` or `invitations`). */
  datatype Connection = Connection(pageInfo: PageInfo, edges: seq<Edge>)

  /** One team edge of the organisation-wide query. */
  datatype TeamNode = TeamNode(name: string, members: Connection, invitations: Connection)

  /** The `teams` field of one organisation-wide response. */
  datatype TeamsPage = TeamsPage(pageInfo: PageInfo, edges: seq<TeamNode>)

  /** The `team` field of one single-team response. */
  datatype TeamPage = TeamPage(members: Connection, invitations: Connection)

  /** Why the transport refused to hand back a page. */
  datatype Fault =
    | BadStatus(code: int)   // the status check raised
    | EmbeddedErrors         // the body carried an `errors` list

  /** What the endpoint answered to one request. */
  datatype Reply<+P> = Answered(page: P) | Faulted(fault: Fault)

  /** Everything that aborts a run. */
  datatype FetchError =
    | MissingOrgName
    | UnknownUserFormat(edge: Edge)
    | MissingInviteeLogin(edge: Edge)
    | TransportFailed(fault: Fault)
    | RepliesExhausted       // the oracle has no reply left for a request

  type Outcome<T> = Result<T, FetchError>
}
