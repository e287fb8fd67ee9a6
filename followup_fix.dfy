/**
 * A single-team pass that reads each field's pages once. It differs from
 * `FollowupFetcher.DeepRun` in one point: a field that has reported its last
 * page is no longer appended, although the request still carries its clause.
 * Against an endpoint that serves each field's pages by that field's clause,
 * each list is then every page of its field, once each, in page order.
 */
module FollowupFix {

  import opened Wrappers
  import opened Responses
  import opened SeqFacts
  import opened EdgeNormalizer
  import opened Queries
  import opened FollowupFetcher

  /** Which fields still have pages to read. */
  datatype Pending = Pending(members: bool, invitations: bool)

  /** A field's normalised edges while it is pending; nothing once it has been read to its end. */
  function Take(pending: bool, field: Connection): Outcome<seq<string>> {
    if pending then NormaliseEdges(field.edges) else Ok([])
  }

  /** The lists after one page, taking only the fields still pending. */
  function FixedGrow(acc: TeamLists, pending: Pending, page: TeamPage): Outcome<TeamLists> {
    var ms :- Take(pending.members, page.members);
    var invs :- Take(pending.invitations, page.invitations);
    Ok(TeamLists(acc.members + ms, acc.invitations + invs))
  }

  /** A field stays pending while it keeps reporting more pages. */
  function StillPending(pending: Pending, page: TeamPage): Pending {
    Pending(pending.members && page.members.pageInfo.hasNextPage,
            pending.invitations && page.invitations.pageInfo.hasNextPage)
  }

  /** The corrected pass: the clauses advance as in `DeepRun`; only pending fields are appended. */
  function FixedRun(replies: seq<Reply<TeamPage>>, clauses: Clauses, pending: Pending, acc: TeamLists): Run<TeamLists, Clauses>
    decreases |replies|
  {
    if replies == [] then Run(Err(RepliesExhausted), [clauses])
    else
      match replies[0]
      case Faulted(f) => Run(Err(TransportFailed(f)), [clauses])
      case Answered(page) =>
        match FixedGrow(acc, pending, page)
        case Err(e) => Run(Err(e), [clauses])
        case Ok(grown) =>
          var left := StillPending(pending, page);
          if left.members || left.invitations then
            Prepend([clauses], FixedRun(replies[1..], NextClauses(clauses, page), left, grown))
          else
            Run(Ok(grown), [clauses])
  }

  /** The pass for a team, from no clauses, both fields pending and empty lists. */
  function FixedPass(replies: seq<Reply<TeamPage>>): Run<TeamLists, Clauses> {
    FixedRun(replies, Clauses(None, None), Pending(true, true), TeamLists([], []))
  }

  /** How the endpoint serves one field: the page it returns for each clause of that field. */
  type FieldServer = Option<string> -> Connection

  /**
   * The pages of a field from `cursor` on: the page served for the cursor,
   * then, while a page reports more, the page after its end cursor; at most
   * `fuel` pages.
   */
  function FieldWalk(serve: FieldServer, cursor: Option<string>, fuel: nat): seq<Connection>
    decreases fuel
  {
    if fuel == 0 then []
    else
      var page := serve(cursor);
      [page] + (if page.pageInfo.hasNextPage then FieldWalk(serve, Some(page.pageInfo.endCursor), fuel - 1) else [])
  }

  /** The walk from `cursor` reaches a page without more pages within `fuel` pages. */
  predicate WalkEnds(serve: FieldServer, cursor: Option<string>, fuel: nat)
    decreases fuel
  {
    fuel > 0 &&
    (serve(cursor).pageInfo.hasNextPage ==> WalkEnds(serve, Some(serve(cursor).pageInfo.endCursor), fuel - 1))
  }

  /** Every edge of a list of pages, in order. */
  function EdgesOf(pages: seq<Connection>): seq<Edge>
    decreases |pages|
  {
    if pages == [] then [] else pages[0].edges + EdgesOf(pages[1..])
  }

  /** Each of the first `|sent|` replies is the page the endpoint serves for that request's clauses. */
  predicate Served(replies: seq<Reply<TeamPage>>, sent: seq<Clauses>, members: FieldServer, invitations: FieldServer) {
    && |sent| <= |replies|
    && forall i :: 0 <= i < |sent| ==>
         replies[i] == Answered(TeamPage(members(sent[i].members), invitations(sent[i].invitations)))
  }

  /** The two fields, so that one proof covers both. */
  datatype Field = Members | Invitations

  function FieldOf(page: TeamPage, f: Field): Connection {
    if f == Members then page.members else page.invitations
  }

  function CursorOf(clauses: Clauses, f: Field): Option<string> {
    if f == Members then clauses.members else clauses.invitations
  }

  function PendingOf(pending: Pending, f: Field): bool {
    if f == Members then pending.members else pending.invitations
  }

  function ListOf(lists: TeamLists, f: Field): seq<string> {
    if f == Members then lists.members else lists.invitations
  }

  /** What a pending field's list ends as: the list so far, then every page of its walk. */
  predicate ReadOnce(serve: FieldServer, cursor: Option<string>, n: nat, before: seq<string>, after: seq<string>) {
    && WalkEnds(serve, cursor, n)
    && NormaliseEdges(EdgesOf(FieldWalk(serve, cursor, n))).Ok?
    && after == before + NormaliseEdges(EdgesOf(FieldWalk(serve, cursor, n))).value
  }

  lemma EdgesOfCons(page: Connection, rest: seq<Connection>)
    ensures EdgesOf([page] + rest) == page.edges + EdgesOf(rest)
  {
    assert ([page] + rest)[1..] == rest;
  }

  /** The replies after the first are served for the requests after the first. */
  lemma ServedTail(replies: seq<Reply<TeamPage>>, clauses: Clauses, rest: seq<Clauses>,
                   members: FieldServer, invitations: FieldServer)
    requires Served(replies, [clauses] + rest, members, invitations)
    ensures Served(replies[1..], rest, members, invitations)
  {
    forall i | 0 <= i < |rest|
      ensures replies[1..][i] == Answered(TeamPage(members(rest[i].members), invitations(rest[i].invitations)))
    {
      assert ([clauses] + rest)[i + 1] == rest[i];
    }
  }

  /** One field's account of one page: how its list and its walk grow together. */
  lemma FieldPage(serve: FieldServer, cursor: Option<string>, n: nat, pending: bool, page: Connection,
                  before: seq<string>, grown: seq<string>, after: seq<string>)
    requires n >= 1 && serve(cursor) == page
    requires Take(pending, page).Ok? && grown == before + Take(pending, page).value
    requires pending && page.pageInfo.hasNextPage ==>
               ReadOnce(serve, Some(page.pageInfo.endCursor), n - 1, grown, after)
    requires !(pending && page.pageInfo.hasNextPage) ==> after == grown
    ensures pending ==> ReadOnce(serve, cursor, n, before, after)
    ensures !pending ==> after == before
  {
    if pending {
      var walk := FieldWalk(serve, cursor, n);
      var ms := NormaliseEdges(page.edges).value;
      if page.pageInfo.hasNextPage {
        var later := FieldWalk(serve, Some(page.pageInfo.endCursor), n - 1);
        assert walk == [page] + later;
        EdgesOfCons(page, later);
        NormaliseEdgesAppend(page.edges, EdgesOf(later));
        AppendAssoc(before, ms, NormaliseEdges(EdgesOf(later)).value);
      } else {
        assert walk == [page] + [];
        EdgesOfCons(page, []);
        assert EdgesOf([]) == [];
        assert page.edges + [] == page.edges;
      }
    } else {
      assert Take(pending, page).value == [];
      assert before + [] == before;
    }
  }

  /**
   * Against an endpoint that serves each field by its own clause, a corrected
   * pass that succeeds appends each pending field's pages exactly as its walk
   * from its clause yields them, once each, and the walk reached the field's
   * last page; a field that is not pending is left as it was.
   */
  lemma {:induction false} FixedRunField(replies: seq<Reply<TeamPage>>, clauses: Clauses, pending: Pending, acc: TeamLists,
                                         members: FieldServer, invitations: FieldServer, f: Field)
    requires FixedRun(replies, clauses, pending, acc).result.Ok?
    requires Served(replies, FixedRun(replies, clauses, pending, acc).sent, members, invitations)
    ensures var o := FixedRun(replies, clauses, pending, acc);
            var serve := if f == Members then members else invitations;
            && (PendingOf(pending, f) ==>
                  ReadOnce(serve, CursorOf(clauses, f), |o.sent|, ListOf(acc, f), ListOf(o.result.value, f)))
            && (!PendingOf(pending, f) ==> ListOf(o.result.value, f) == ListOf(acc, f))
    decreases |replies|
  {
    var o := FixedRun(replies, clauses, pending, acc);
    var serve := if f == Members then members else invitations;
    var page := replies[0].page;
    assert o.sent[0] == clauses;
    assert page == TeamPage(members(clauses.members), invitations(clauses.invitations));
    var grown := FixedGrow(acc, pending, page).value;
    var left := StillPending(pending, page);
    assert ListOf(grown, f) == ListOf(acc, f) + Take(PendingOf(pending, f), FieldOf(page, f)).value;
    if left.members || left.invitations {
      var next := NextClauses(clauses, page);
      var rest := FixedRun(replies[1..], next, left, grown);
      assert o == Prepend([clauses], rest);
      ServedTail(replies, clauses, rest.sent, members, invitations);
      FixedRunField(replies[1..], next, left, grown, members, invitations, f);
      assert FieldOf(page, f).pageInfo.hasNextPage ==> CursorOf(next, f) == Some(FieldOf(page, f).pageInfo.endCursor);
      FieldPage(serve, CursorOf(clauses, f), |o.sent|, PendingOf(pending, f), FieldOf(page, f),
                ListOf(acc, f), ListOf(grown, f), ListOf(o.result.value, f));
    } else {
      assert o == Run(Ok(grown), [clauses]);
      FieldPage(serve, CursorOf(clauses, f), |o.sent|, PendingOf(pending, f), FieldOf(page, f),
                ListOf(acc, f), ListOf(grown, f), ListOf(o.result.value, f));
    }
  }

  /**
   * The corrected pass for a team, against an endpoint that serves each
   * field by its own clause: if it succeeds, each list is every page of that
   * field, from the first to the one without more pages, each once and in
   * order, whichever field finished first.
   */
  lemma FixedPassReadsEachPageOnce(replies: seq<Reply<TeamPage>>, members: FieldServer, invitations: FieldServer)
    requires FixedPass(replies).result.Ok?
    requires Served(replies, FixedPass(replies).sent, members, invitations)
    ensures var o := FixedPass(replies);
            && ReadOnce(members, None, |o.sent|, [], o.result.value.members)
            && ReadOnce(invitations, None, |o.sent|, [], o.result.value.invitations)
  {
    FixedRunField(replies, Clauses(None, None), Pending(true, true), TeamLists([], []), members, invitations, Members);
    FixedRunField(replies, Clauses(None, None), Pending(true, true), TeamLists([], []), members, invitations, Invitations);
  }
}
