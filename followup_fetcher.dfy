/**
 * The single-team pass for a team whose lists did not fit in the
 * organisation-wide pages: page through its members and its invitations
 * with two cursors that advance independently, until neither field has
 * more pages.
 */
module FollowupFetcher {

  import opened Wrappers
  import opened Responses
  import opened SeqFacts
  import opened EdgeNormalizer
  import opened Queries

  /** A team's lists as they appear in the output. */
  datatype TeamLists = TeamLists(members: seq<string>, invitations: seq<string>)

  /** The pagination state of a single-team request: one cursor per field. */
  datatype Clauses = Clauses(members: Option<string>, invitations: Option<string>)

  /** A field's cursor after a page: the page's end cursor if the field has more pages, otherwise as it was. */
  function Advance(cursor: Option<string>, field: Connection): Option<string> {
    if field.pageInfo.hasNextPage then Some(field.pageInfo.endCursor) else cursor
  }

  /** At least one of the two fields has more pages. */
  predicate MoreRemain(page: TeamPage) {
    page.members.pageInfo.hasNextPage || page.invitations.pageInfo.hasNextPage
  }

  /** The clauses of the request after `page`: each field's cursor advanced on its own. */
  function NextClauses(clauses: Clauses, page: TeamPage): Clauses {
    Clauses(Advance(clauses.members, page.members), Advance(clauses.invitations, page.invitations))
  }

  /** The lists after one page: both extended by the page's normalised edges, members checked first. */
  function Grow(acc: TeamLists, page: TeamPage): Outcome<TeamLists> {
    var ms :- NormaliseEdges(page.members.edges);
    var invs :- NormaliseEdges(page.invitations.edges);
    Ok(TeamLists(acc.members + ms, acc.invitations + invs))
  }

  /**
   * The single-team pass from the request built from `clauses` onwards,
   * over the replies still to come, with the lists gathered so far in `acc`.
   */
  function DeepRun(replies: seq<Reply<TeamPage>>, clauses: Clauses, acc: TeamLists): Run<TeamLists, Clauses>
    decreases |replies|
  {
    if replies == [] then Run(Err(RepliesExhausted), [clauses])
    else
      match replies[0]
      case Faulted(f) => Run(Err(TransportFailed(f)), [clauses])
      case Answered(page) =>
        match Grow(acc, page)
        case Err(e) => Run(Err(e), [clauses])
        case Ok(grown) =>
          if MoreRemain(page) then
            Prepend([clauses], DeepRun(replies[1..], NextClauses(clauses, page), grown))
          else
            Run(Ok(grown), [clauses])
  }

  /** The pass from the reply at index `i` onwards, one step unfolded. */
  lemma DeepRunAt(replies: seq<Reply<TeamPage>>, i: nat, clauses: Clauses, acc: TeamLists)
    requires i < |replies|
    ensures replies[i].Faulted? ==>
              DeepRun(replies[i..], clauses, acc) == Run(Err(TransportFailed(replies[i].fault)), [clauses])
    ensures replies[i].Answered? && Grow(acc, replies[i].page).Err? ==>
              DeepRun(replies[i..], clauses, acc) == Run(Grow(acc, replies[i].page), [clauses])
    ensures replies[i].Answered? && Grow(acc, replies[i].page).Ok? && !MoreRemain(replies[i].page) ==>
              DeepRun(replies[i..], clauses, acc) == Run(Grow(acc, replies[i].page), [clauses])
    ensures replies[i].Answered? && Grow(acc, replies[i].page).Ok? && MoreRemain(replies[i].page) ==>
              DeepRun(replies[i..], clauses, acc) ==
                Prepend([clauses], DeepRun(replies[i + 1..], NextClauses(clauses, replies[i].page),
                                           Grow(acc, replies[i].page).value))
  {
    assert replies[i..][0] == replies[i];
    assert replies[i..][1..] == replies[i + 1..];
  }

  /** The parameters of the single-team requests sent with the given clauses. */
  function TeamRequests(org: string, team: string, sent: seq<Clauses>): (ps: seq<Params>)
    ensures |ps| == |sent|
    ensures forall i :: 0 <= i < |sent| ==>
              ps[i] == TeamQueryParams(org, team, sent[i].members, sent[i].invitations)
    decreases |sent|
  {
    if sent == [] then []
    else
      var last := sent[|sent| - 1];
      TeamRequests(org, team, sent[..|sent| - 1]) + [TeamQueryParams(org, team, last.members, last.invitations)]
  }

  lemma TeamRequestsSnoc(org: string, team: string, sent: seq<Clauses>, clauses: Clauses)
    ensures TeamRequests(org, team, sent + [clauses])
            == TeamRequests(org, team, sent) + [TeamQueryParams(org, team, clauses.members, clauses.invitations)]
  {
    assert (sent + [clauses])[..|sent|] == sent;
  }

  /**
   * The pass for team `teamName`, as run against an endpoint that answers
   * the successive requests with `replies`; also returns each request's
   * parameters.
   */
  method GetExtendedTeamData(orgname: string, teamName: string, replies: seq<Reply<TeamPage>>)
    returns (r: Outcome<TeamLists>, requests: seq<Params>)
    ensures r == DeepRun(replies, Clauses(None, None), TeamLists([], [])).result
    ensures requests == TeamRequests(orgname, teamName, DeepRun(replies, Clauses(None, None), TeamLists([], [])).sent)
  {
    ghost var spec := DeepRun(replies, Clauses(None, None), TeamLists([], []));
    ghost var sent: seq<Clauses> := [];
    var teamData := TeamLists([], []);
    var membersPagination: Option<string> := None;
    var invitationsPagination: Option<string> := None;
    var stillGoing := true;
    var i := 0;
    r := Ok(teamData);
    requests := [];
    while stillGoing
      invariant 0 <= i <= |replies|
      invariant requests == TeamRequests(orgname, teamName, sent)
      invariant stillGoing ==>
                  spec == Prepend(sent, DeepRun(replies[i..], Clauses(membersPagination, invitationsPagination), teamData))
      invariant !stillGoing ==> spec == Run(r, sent)
      decreases |replies| - i
    {
      ghost var earlier := sent;
      ghost var clauses := Clauses(membersPagination, invitationsPagination);
      TeamRequestsSnoc(orgname, teamName, sent, clauses);
      sent := sent + [clauses];
      var params := MergeParams(map["orgname" := orgname, "team_name" := Lower(teamName),
                                    "members_pagination" := RenderPagination(membersPagination),
                                    "invitations_pagination" := RenderPagination(invitationsPagination)]);
      requests := requests + [params];
      if i == |replies| {
        r := Err(RepliesExhausted);
        return;
      }
      DeepRunAt(replies, i, clauses, teamData);
      ghost var tail := DeepRun(replies[i..], clauses, teamData);
      ghost var before := teamData;
      var reply := replies[i];
      i := i + 1;
      if reply.Faulted? {
        r := Err(TransportFailed(reply.fault));
        return;
      }
      var teamResp := reply.page;
      var ms := NormaliseEdges(teamResp.members.edges);
      if ms.Err? {
        r := Err(ms.error);
        return;
      }
      var invs := NormaliseEdges(teamResp.invitations.edges);
      if invs.Err? {
        r := Err(invs.error);
        return;
      }
      teamData := TeamLists(teamData.members + ms.value, teamData.invitations + invs.value);
      assert Grow(before, teamResp) == Ok(teamData);

      stillGoing := false;
      if teamResp.members.pageInfo.hasNextPage {
        membersPagination := Some(teamResp.members.pageInfo.endCursor);
        stillGoing := true;
      }
      if teamResp.invitations.pageInfo.hasNextPage {
        invitationsPagination := Some(teamResp.invitations.pageInfo.endCursor);
        stillGoing := true;
      }
      if stillGoing {
        assert Clauses(membersPagination, invitationsPagination) == NextClauses(clauses, teamResp);
        ghost var later := DeepRun(replies[i..], Clauses(membersPagination, invitationsPagination), teamData);
        assert tail == Prepend([clauses], later);
        PrependPrepend(earlier, [clauses], later);
        assert spec == Prepend(sent, later);
      } else {
        r := Ok(teamData);
      }
    }
  }

  /** Every member edge of the answered replies, in order. */
  function MemberEdgesOf(replies: seq<Reply<TeamPage>>): seq<Edge>
    decreases |replies|
  {
    if replies == [] then []
    else (if replies[0].Answered? then replies[0].page.members.edges else []) + MemberEdgesOf(replies[1..])
  }

  /** Every invitation edge of the answered replies, in order. */
  function InvitationEdgesOf(replies: seq<Reply<TeamPage>>): seq<Edge>
    decreases |replies|
  {
    if replies == [] then []
    else (if replies[0].Answered? then replies[0].page.invitations.edges else []) + InvitationEdgesOf(replies[1..])
  }

  /**
   * A pass that succeeds consumed one answered reply per request, and its
   * lists are the gathered lists followed by the normalised edges of every
   * page it read, in page order, with nothing dropped or merged.
   */
  lemma {:induction false} DeepRunCollects(replies: seq<Reply<TeamPage>>, clauses: Clauses, acc: TeamLists)
    ensures var o := DeepRun(replies, clauses, acc);
            o.result.Ok? ==>
              && |o.sent| <= |replies|
              && (forall i :: 0 <= i < |o.sent| ==> replies[i].Answered?)
              && NormaliseEdges(MemberEdgesOf(replies[..|o.sent|])).Ok?
              && NormaliseEdges(InvitationEdgesOf(replies[..|o.sent|])).Ok?
              && o.result.value
                 == TeamLists(acc.members + NormaliseEdges(MemberEdgesOf(replies[..|o.sent|])).value,
                              acc.invitations + NormaliseEdges(InvitationEdgesOf(replies[..|o.sent|])).value)
    decreases |replies|
  {
    var o := DeepRun(replies, clauses, acc);
    if o.result.Ok? {
      var page := replies[0].page;
      var ms := NormaliseEdges(page.members.edges).value;
      var invs := NormaliseEdges(page.invitations.edges).value;
      var grown := TeamLists(acc.members + ms, acc.invitations + invs);
      assert Grow(acc, page) == Ok(grown);
      var n := |o.sent|;
      if MoreRemain(page) {
        var next := NextClauses(clauses, page);
        var rest := DeepRun(replies[1..], next, grown);
        DeepRunCollects(replies[1..], next, grown);
        assert n == |rest.sent| + 1;
        var taken := replies[..n];
        assert taken[0] == replies[0];
        forall i | 0 <= i < n ensures replies[i].Answered? {
          if i > 0 { assert replies[i] == replies[1..][i - 1]; }
        }
        assert taken[1..] == replies[1..][..n - 1];
        var laterMembers := MemberEdgesOf(replies[1..][..n - 1]);
        var laterInvitations := InvitationEdgesOf(replies[1..][..n - 1]);
        assert MemberEdgesOf(taken) == page.members.edges + laterMembers;
        assert InvitationEdgesOf(taken) == page.invitations.edges + laterInvitations;
        NormaliseEdgesAppend(page.members.edges, laterMembers);
        NormaliseEdgesAppend(page.invitations.edges, laterInvitations);
        AppendAssoc(acc.members, ms, NormaliseEdges(laterMembers).value);
        AppendAssoc(acc.invitations, invs, NormaliseEdges(laterInvitations).value);
      } else {
        var taken := replies[..n];
        assert taken[0] == replies[0];
        assert taken[1..] == [];
        assert MemberEdgesOf(taken) == page.members.edges + [];
        assert InvitationEdgesOf(taken) == page.invitations.edges + [];
        assert page.members.edges + [] == page.members.edges;
        assert page.invitations.edges + [] == page.invitations.edges;
      }
    }
  }

  /**
   * The clauses of a pass: the first request carries the starting clauses;
   * each later request follows a page on which some field had more pages,
   * and each field's cursor moves to that page's end cursor only if that
   * field had more pages, and otherwise stays as it was.
   */
  lemma {:induction false} DeepRunCursors(replies: seq<Reply<TeamPage>>, clauses: Clauses, acc: TeamLists)
    ensures var o := DeepRun(replies, clauses, acc);
            && 1 <= |o.sent| <= |replies| + 1
            && o.sent[0] == clauses
            && (forall i :: 0 <= i < |o.sent| - 1 ==>
                  && replies[i].Answered?
                  && MoreRemain(replies[i].page)
                  && o.sent[i + 1] == Clauses(Advance(o.sent[i].members, replies[i].page.members),
                                              Advance(o.sent[i].invitations, replies[i].page.invitations)))
    decreases |replies|
  {
    var o := DeepRun(replies, clauses, acc);
    if |o.sent| > 1 {
      var page := replies[0].page;
      var grown := Grow(acc, page).value;
      var next := NextClauses(clauses, page);
      var rest := DeepRun(replies[1..], next, grown);
      assert o.sent == [clauses] + rest.sent;
      DeepRunCursors(replies[1..], next, grown);
      forall i | 1 <= i < |o.sent| - 1
        ensures && replies[i].Answered? && MoreRemain(replies[i].page)
                && o.sent[i + 1] == Clauses(Advance(o.sent[i].members, replies[i].page.members),
                                            Advance(o.sent[i].invitations, replies[i].page.invitations))
      {
        assert replies[i] == replies[1..][i - 1];
        assert o.sent[i] == rest.sent[i - 1];
        assert o.sent[i + 1] == rest.sent[i];
      }
    }
  }

  /** A pass that succeeds ends exactly on an answered page where neither field has more pages. */
  lemma {:induction false} DeepRunStops(replies: seq<Reply<TeamPage>>, clauses: Clauses, acc: TeamLists)
    ensures var o := DeepRun(replies, clauses, acc);
            o.result.Ok? ==>
              && 1 <= |o.sent| <= |replies|
              && replies[|o.sent| - 1].Answered?
              && !MoreRemain(replies[|o.sent| - 1].page)
    decreases |replies|
  {
    var o := DeepRun(replies, clauses, acc);
    if o.result.Ok? && MoreRemain(replies[0].page) {
      var page := replies[0].page;
      var grown := Grow(acc, page).value;
      var next := NextClauses(clauses, page);
      var rest := DeepRun(replies[1..], next, grown);
      DeepRunStops(replies[1..], next, grown);
      assert replies[|o.sent| - 1] == replies[1..][|rest.sent| - 1];
    }
  }
}
