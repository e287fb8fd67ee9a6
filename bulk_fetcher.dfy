/**
 * The organisation-wide pass: walk the team pages with one cursor, create a
 * record per team name, merge a team's members and invitations when both fit
 * in the page, and flag the team for a follow-up otherwise.
 */
module BulkFetcher {

  import opened Wrappers
  import opened Responses
  import opened SeqFacts
  import opened EdgeNormalizer
  import opened Queries

  /** One team's record while the pass runs; `followup` marks a team whose lists did not fit. */
  datatype TeamRecord = TeamRecord(members: seq<string>, invitations: seq<string>, followup: bool)

  type OrgData = map<string, TeamRecord>

  const NewRecord: TeamRecord := TeamRecord([], [], false)

  /** The team's current record, or the record a first sighting creates. */
  function RecordFor(data: OrgData, name: string): TeamRecord {
    if name in data then data[name] else NewRecord
  }

  /** The team's members or its invitations have more pages than the one in hand. */
  predicate Overflows(t: TeamNode) {
    t.members.pageInfo.hasNextPage || t.invitations.pageInfo.hasNextPage
  }

  /** The pass sends another request after this page: it had a team and more teams remain. */
  predicate Continues(page: TeamsPage) {
    |page.edges| > 0 && page.pageInfo.hasNextPage
  }

  /** `after` holds everything `before` held: lists only grow at their end and a set flag stays set. */
  predicate Extends(before: TeamRecord, after: TeamRecord) {
    && before.members <= after.members
    && before.invitations <= after.invitations
    && (before.followup ==> after.followup)
  }

  function Names(teams: seq<TeamNode>): set<string> {
    set i | 0 <= i < |teams| :: teams[i].name
  }

  /** What one team edge does to the records. */
  function MergeTeam(data: OrgData, t: TeamNode): Outcome<OrgData> {
    var rec := RecordFor(data, t.name);
    if Overflows(t) then
      Ok(data[t.name := rec.(followup := true)])
    else
      var ms :- NormaliseEdges(t.members.edges);
      var invs :- NormaliseEdges(t.invitations.edges);
      Ok(data[t.name := rec.(members := rec.members + ms, invitations := rec.invitations + invs)])
  }

  /**
   * One team edge touches only its own team's record, which it creates if
   * need be. A team that overflows is flagged and its lists are left
   * alone; a team that fits has both lists extended by its normalised edges
   * and its flag left alone, unless an edge is not a user edge.
   */
  lemma MergeTeamEffect(data: OrgData, t: TeamNode)
    ensures var r := MergeTeam(data, t);
            && (r.Ok? ==> r.value.Keys == data.Keys + {t.name})
            && (r.Ok? ==> forall k :: k in data && k != t.name ==> r.value[k] == data[k])
            && (Overflows(t) ==> r.Ok? && r.value[t.name] == RecordFor(data, t.name).(followup := true))
            && (!Overflows(t) ==>
                  (r.Ok? <==> NormaliseEdges(t.members.edges).Ok? && NormaliseEdges(t.invitations.edges).Ok?))
            && (!Overflows(t) && r.Ok? ==>
                  r.value[t.name] == TeamRecord(RecordFor(data, t.name).members + NormaliseEdges(t.members.edges).value,
                                                RecordFor(data, t.name).invitations + NormaliseEdges(t.invitations.edges).value,
                                                RecordFor(data, t.name).followup))
  {
  }

  /** What the team edges of one page do to the records, in page order. */
  function MergePage(data: OrgData, teams: seq<TeamNode>): Outcome<OrgData>
    decreases |teams|
  {
    if teams == [] then Ok(data)
    else
      var d :- MergePage(data, teams[..|teams| - 1]);
      MergeTeam(d, teams[|teams| - 1])
  }

  lemma NamesSnoc(teams: seq<TeamNode>)
    requires teams != []
    ensures Names(teams) == Names(teams[..|teams| - 1]) + {teams[|teams| - 1].name}
  {
    var init := teams[..|teams| - 1];
    forall n | n in Names(teams) ensures n in Names(init) + {teams[|teams| - 1].name} {
      var i :| 0 <= i < |teams| && teams[i].name == n;
      if i < |teams| - 1 { assert init[i] == teams[i]; }
    }
    forall n | n in Names(init) ensures n in Names(teams) {
      var i :| 0 <= i < |init| && init[i].name == n;
      assert teams[i] == init[i];
    }
  }

  /**
   * Merging a page creates a record for every team name on it and no other,
   * and never takes anything away from an existing record.
   */
  lemma {:induction false} MergePageKeeps(data: OrgData, teams: seq<TeamNode>)
    ensures var r := MergePage(data, teams);
            && (r.Ok? ==> r.value.Keys == data.Keys + Names(teams))
            && (r.Ok? ==> forall k :: k in data ==> Extends(data[k], r.value[k]))
    decreases |teams|
  {
    if teams != [] {
      var init := teams[..|teams| - 1];
      MergePageKeeps(data, init);
      var d := MergePage(data, init);
      if d.Ok? {
        MergeTeamEffect(d.value, teams[|teams| - 1]);
        NamesSnoc(teams);
      }
    }
  }

  /** Merging two lists of team edges one after the other is merging their concatenation. */
  lemma {:induction false} MergePageAppend(data: OrgData, a: seq<TeamNode>, b: seq<TeamNode>)
    ensures MergePage(data, a + b) == (match MergePage(data, a)
                                        case Ok(d) => MergePage(d, b)
                                        case Err(e) => Err(e))
    decreases |b|
  {
    if b == [] {
      assert a + b == a;
    } else {
      var ab := a + b;
      assert ab[..|ab| - 1] == a + b[..|b| - 1];
      assert ab[|ab| - 1] == b[|b| - 1];
      MergePageAppend(data, a, b[..|b| - 1]);
    }
  }

  /** Merging one more team edge of a page. */
  lemma MergePageStep(data: OrgData, teams: seq<TeamNode>, j: nat)
    requires j < |teams|
    ensures MergePage(data, teams[..j + 1]) == (match MergePage(data, teams[..j])
                                                 case Ok(d) => MergeTeam(d, teams[j])
                                                 case Err(e) => Err(e))
  {
    assert teams[..j + 1][..j] == teams[..j];
  }

  /** Once a prefix of a page fails, the whole page fails with the same error. */
  lemma MergePageFailsEarly(data: OrgData, teams: seq<TeamNode>, j: nat)
    requires j <= |teams|
    requires MergePage(data, teams[..j]).Err?
    ensures MergePage(data, teams) == MergePage(data, teams[..j])
  {
    MergePageAppend(data, teams[..j], teams[j..]);
    TakeDrop(teams, j);
  }

  /** The member edges a list of team edges hands to team `name`: those of every sighting that fits, in order. */
  function FittingMembers(teams: seq<TeamNode>, name: string): seq<Edge>
    decreases |teams|
  {
    if teams == [] then []
    else
      var t := teams[|teams| - 1];
      FittingMembers(teams[..|teams| - 1], name) + (if t.name == name && !Overflows(t) then t.members.edges else [])
  }

  /** The invitation edges a list of team edges hands to team `name`. */
  function FittingInvitations(teams: seq<TeamNode>, name: string): seq<Edge>
    decreases |teams|
  {
    if teams == [] then []
    else
      var t := teams[|teams| - 1];
      FittingInvitations(teams[..|teams| - 1], name) + (if t.name == name && !Overflows(t) then t.invitations.edges else [])
  }

  /** Some sighting of team `name` did not fit. */
  predicate AnyOverflow(teams: seq<TeamNode>, name: string) {
    exists i :: 0 <= i < |teams| && teams[i].name == name && Overflows(teams[i])
  }

  /** Whether some sighting overflowed, split at the last team edge. */
  lemma AnyOverflowSnoc(teams: seq<TeamNode>, name: string)
    requires teams != []
    ensures AnyOverflow(teams, name) ==
            (AnyOverflow(teams[..|teams| - 1], name) || (teams[|teams| - 1].name == name && Overflows(teams[|teams| - 1])))
  {
    var init := teams[..|teams| - 1];
    var t := teams[|teams| - 1];
    if AnyOverflow(teams, name) && !(t.name == name && Overflows(t)) {
      var i :| 0 <= i < |teams| && teams[i].name == name && Overflows(teams[i]);
      assert i != |teams| - 1;
      assert init[i] == teams[i];
    }
    if AnyOverflow(init, name) {
      var i :| 0 <= i < |init| && init[i].name == name && Overflows(init[i]);
      assert teams[i] == init[i];
    }
  }

  /**
   * After merging a list of team edges, a team's lists are its old lists
   * followed by the normalised edges of every sighting that fit, and it is
   * flagged exactly when it was flagged already or some sighting overflowed.
   */
  lemma {:induction false} MergePageContents(data: OrgData, teams: seq<TeamNode>, name: string)
    requires MergePage(data, teams).Ok?
    ensures NormaliseEdges(FittingMembers(teams, name)).Ok?
    ensures NormaliseEdges(FittingInvitations(teams, name)).Ok?
    ensures RecordFor(MergePage(data, teams).value, name)
         == TeamRecord(RecordFor(data, name).members + NormaliseEdges(FittingMembers(teams, name)).value,
                       RecordFor(data, name).invitations + NormaliseEdges(FittingInvitations(teams, name)).value,
                       RecordFor(data, name).followup || AnyOverflow(teams, name))
    decreases |teams|
  {
    var base := RecordFor(data, name);
    if teams == [] {
      assert NormaliseEdges([]).value == [];
      assert base.members + [] == base.members;
      assert base.invitations + [] == base.invitations;
    } else {
      var init := teams[..|teams| - 1];
      var t := teams[|teams| - 1];
      MergePageContents(data, init, name);
      var d := MergePage(data, init).value;
      var r := MergePage(data, teams).value;
      assert MergeTeam(d, t) == Ok(r);
      MergeTeamEffect(d, t);
      var ms := NormaliseEdges(FittingMembers(init, name)).value;
      var invs := NormaliseEdges(FittingInvitations(init, name)).value;
      AnyOverflowSnoc(teams, name);
      if t.name == name && !Overflows(t) {
        var tm := NormaliseEdges(t.members.edges).value;
        var ti := NormaliseEdges(t.invitations.edges).value;
        NormaliseEdgesAppend(FittingMembers(init, name), t.members.edges);
        NormaliseEdgesAppend(FittingInvitations(init, name), t.invitations.edges);
        AppendAssoc(base.members, ms, tm);
        AppendAssoc(base.invitations, invs, ti);
      } else {
        assert FittingMembers(teams, name) == FittingMembers(init, name) + [];
        assert FittingInvitations(teams, name) == FittingInvitations(init, name) + [];
        assert FittingMembers(init, name) + [] == FittingMembers(init, name);
        assert FittingInvitations(init, name) + [] == FittingInvitations(init, name);
      }
    }
  }

  /** Every team edge of the answered replies, in order. */
  function TeamsOf(replies: seq<Reply<TeamsPage>>): seq<TeamNode>
    decreases |replies|
  {
    if replies == [] then []
    else (if replies[0].Answered? then replies[0].page.edges else []) + TeamsOf(replies[1..])
  }

  /**
   * The organisation-wide pass from the request with clause `pagination`
   * onwards, over the replies still to come, starting from records `data`.
   */
  function BulkRun(replies: seq<Reply<TeamsPage>>, pagination: Option<string>, data: OrgData): (o: Run<OrgData, Option<string>>)
    decreases |replies|
  {
    if replies == [] then Run(Err(RepliesExhausted), [pagination])
    else
      match replies[0]
      case Faulted(f) => Run(Err(TransportFailed(f)), [pagination])
      case Answered(page) =>
        match MergePage(data, page.edges)
        case Err(e) => Run(Err(e), [pagination])
        case Ok(d) =>
          if Continues(page) then
            Prepend([pagination], BulkRun(replies[1..], Some(page.pageInfo.endCursor), d))
          else
            Run(Ok(d), [pagination])
  }

  /** The pass from the reply at index `i` onwards, one step unfolded. */
  lemma BulkRunAt(replies: seq<Reply<TeamsPage>>, i: nat, pagination: Option<string>, data: OrgData)
    requires i < |replies|
    ensures replies[i].Faulted? ==>
              BulkRun(replies[i..], pagination, data) == Run(Err(TransportFailed(replies[i].fault)), [pagination])
    ensures replies[i].Answered? && MergePage(data, replies[i].page.edges).Err? ==>
              BulkRun(replies[i..], pagination, data) == Run(Err(MergePage(data, replies[i].page.edges).error), [pagination])
    ensures replies[i].Answered? && MergePage(data, replies[i].page.edges).Ok? && !Continues(replies[i].page) ==>
              BulkRun(replies[i..], pagination, data) == Run(MergePage(data, replies[i].page.edges), [pagination])
    ensures replies[i].Answered? && MergePage(data, replies[i].page.edges).Ok? && Continues(replies[i].page) ==>
              BulkRun(replies[i..], pagination, data) ==
                Prepend([pagination], BulkRun(replies[i + 1..], Some(replies[i].page.pageInfo.endCursor),
                                              MergePage(data, replies[i].page.edges).value))
  {
    assert replies[i..][0] == replies[i];
    assert replies[i..][1..] == replies[i + 1..];
  }

  /** The records of a whole pass, which starts with no clause and no records. */
  function BulkPass(replies: seq<Reply<TeamsPage>>): Outcome<OrgData> {
    BulkRun(replies, None, map[]).result
  }

  /** The parameters of the organisation-wide requests sent with the given clauses. */
  function BulkRequests(org: string, sent: seq<Option<string>>): (ps: seq<Params>)
    ensures |ps| == |sent|
    ensures forall i :: 0 <= i < |sent| ==> ps[i] == BulkQueryParams(org, sent[i])
    decreases |sent|
  {
    if sent == [] then []
    else BulkRequests(org, sent[..|sent| - 1]) + [BulkQueryParams(org, sent[|sent| - 1])]
  }

  lemma BulkRequestsSnoc(org: string, sent: seq<Option<string>>, pagination: Option<string>)
    ensures BulkRequests(org, sent + [pagination]) == BulkRequests(org, sent) + [BulkQueryParams(org, pagination)]
  {
    assert (sent + [pagination])[..|sent|] == sent;
  }

  /** The body of the per-team loop: find or create the record, then flag it or extend its lists. */
  method AbsorbTeam(orgData: OrgData, team: TeamNode) returns (r: Outcome<OrgData>)
    ensures r == MergeTeam(orgData, team)
  {
    var data := orgData;
    if team.name !in data {
      data := data[team.name := TeamRecord([], [], false)];
    }
    assert data == orgData[team.name := RecordFor(orgData, team.name)];
    if team.members.pageInfo.hasNextPage || team.invitations.pageInfo.hasNextPage {
      data := data[team.name := data[team.name].(followup := true)];
      assert data == orgData[team.name := RecordFor(orgData, team.name).(followup := true)];
    } else {
      var ms := NormaliseEdges(team.members.edges);
      if ms.Err? {
        return Err(ms.error);
      }
      var invs := NormaliseEdges(team.invitations.edges);
      if invs.Err? {
        return Err(invs.error);
      }
      var rec := data[team.name];
      data := data[team.name := rec.(members := rec.members + ms.value,
                                     invitations := rec.invitations + invs.value)];
      assert rec == RecordFor(orgData, team.name);
      assert data == orgData[team.name := rec.(members := rec.members + ms.value,
                                               invitations := rec.invitations + invs.value)];
    }
    r := Ok(data);
  }

  /**
   * The loop over the team edges of one page. It also decides whether
   * another page is requested and with which cursor.
   */
  method AbsorbPage(orgData: OrgData, page: TeamsPage, pagination: Option<string>)
    returns (r: Outcome<OrgData>, stillGoing: bool, next: Option<string>)
    ensures r == MergePage(orgData, page.edges)
    ensures r.Ok? ==> stillGoing == Continues(page)
    ensures r.Ok? ==> next == if Continues(page) then Some(page.pageInfo.endCursor) else pagination
  {
    var data := orgData;
    stillGoing, next := false, pagination;
    var j := 0;
    while j < |page.edges|
      invariant 0 <= j <= |page.edges|
      invariant MergePage(orgData, page.edges[..j]) == Ok(data)
      invariant stillGoing == (j > 0 && page.pageInfo.hasNextPage)
      invariant next == if stillGoing then Some(page.pageInfo.endCursor) else pagination
    {
      var team := page.edges[j];
      MergePageStep(orgData, page.edges, j);
      if page.pageInfo.hasNextPage {
        stillGoing := true;
        next := Some(page.pageInfo.endCursor);
      }
      var merged := AbsorbTeam(data, team);
      if merged.Err? {
        r := Err(merged.error);
        MergePageFailsEarly(orgData, page.edges, j + 1);
        return;
      }
      data := merged.value;
      j := j + 1;
    }
    assert page.edges[..j] == page.edges;
    r := Ok(data);
  }

  /**
   * The pass, as run against an organisation whose endpoint answers the
   * successive requests with `replies`; also returns each request's parameters.
   */
  method GetInitialOrgData(org: string, replies: seq<Reply<TeamsPage>>) returns (r: Outcome<OrgData>, requests: seq<Params>)
    ensures r == BulkRun(replies, None, map[]).result
    ensures requests == BulkRequests(org, BulkRun(replies, None, map[]).sent)
  {
    ghost var spec := BulkRun(replies, None, map[]);
    ghost var sent: seq<Option<string>> := [];
    var orgData: OrgData := map[];
    var pagination: Option<string> := None;
    var stillGoing := true;
    var i := 0;
    r := Ok(orgData);
    requests := [];
    while stillGoing
      invariant 0 <= i <= |replies|
      invariant requests == BulkRequests(org, sent)
      invariant stillGoing ==> spec == Prepend(sent, BulkRun(replies[i..], pagination, orgData))
      invariant !stillGoing ==> spec == Run(r, sent)
      decreases |replies| - i
    {
      stillGoing := false;
      ghost var earlier := sent;
      BulkRequestsSnoc(org, sent, pagination);
      sent := sent + [pagination];
      var params := MergeParams(map["orgname" := Lower(org), "teams_pagination" := RenderPagination(pagination)]);
      requests := requests + [params];
      if i == |replies| {
        r := Err(RepliesExhausted);
        return;
      }
      BulkRunAt(replies, i, pagination, orgData);
      ghost var tail := BulkRun(replies[i..], pagination, orgData);
      var reply := replies[i];
      i := i + 1;
      if reply.Faulted? {
        r := Err(TransportFailed(reply.fault));
        return;
      }
      var page := reply.page;
      var merged;
      ghost var clause := pagination;
      merged, stillGoing, pagination := AbsorbPage(orgData, page, pagination);
      if merged.Err? {
        r := Err(merged.error);
        return;
      }
      orgData := merged.value;
      if stillGoing {
        ghost var later := BulkRun(replies[i..], pagination, orgData);
        assert tail == Prepend([clause], later);
        PrependPrepend(earlier, [clause], later);
        assert spec == Prepend(sent, later);
      } else {
        r := Ok(orgData);
      }
    }
  }

  /**
   * A pass that succeeds consumed one answered reply per request, and its
   * records are what merging every team edge of those replies gives.
   */
  lemma {:induction false} BulkRunMerges(replies: seq<Reply<TeamsPage>>, pagination: Option<string>, data: OrgData)
    ensures var o := BulkRun(replies, pagination, data);
            o.result.Ok? ==>
              && |o.sent| <= |replies|
              && (forall i :: 0 <= i < |o.sent| ==> replies[i].Answered?)
              && MergePage(data, TeamsOf(replies[..|o.sent|])) == o.result
    decreases |replies|
  {
    var o := BulkRun(replies, pagination, data);
    if o.result.Ok? {
      var page := replies[0].page;
      var d := MergePage(data, page.edges).value;
      if Continues(page) {
        var rest := BulkRun(replies[1..], Some(page.pageInfo.endCursor), d);
        BulkRunMerges(replies[1..], Some(page.pageInfo.endCursor), d);
        var n := |rest.sent|;
        assert |o.sent| == n + 1;
        forall i | 0 <= i < n + 1 ensures replies[i].Answered? {
          if i > 0 { assert replies[i] == replies[1..][i - 1]; }
        }
        var taken := replies[..n + 1];
        assert taken[0] == replies[0] && taken[1..] == replies[1..][..n];
        assert TeamsOf(taken) == page.edges + TeamsOf(replies[1..][..n]);
        MergePageAppend(data, page.edges, TeamsOf(replies[1..][..n]));
      } else {
        var taken := replies[..1];
        assert taken[0] == replies[0] && taken[1..] == [];
        assert TeamsOf(taken) == page.edges + [];
        assert page.edges + [] == page.edges;
      }
    }
  }

  /**
   * The requests of a pass: the first carries the starting clause; each
   * later one carries the end cursor of the page before, and follows only a
   * page that had a team and reported more teams.
   */
  lemma {:induction false} BulkRunRequests(replies: seq<Reply<TeamsPage>>, pagination: Option<string>, data: OrgData)
    ensures var o := BulkRun(replies, pagination, data);
            && 1 <= |o.sent| <= |replies| + 1
            && o.sent[0] == pagination
            && (forall i :: 0 <= i < |o.sent| - 1 ==>
                  && replies[i].Answered?
                  && Continues(replies[i].page)
                  && o.sent[i + 1] == Some(replies[i].page.pageInfo.endCursor))
    decreases |replies|
  {
    var o := BulkRun(replies, pagination, data);
    if |o.sent| > 1 {
      var page := replies[0].page;
      var next := Some(page.pageInfo.endCursor);
      var d := MergePage(data, page.edges).value;
      var rest := BulkRun(replies[1..], next, d);
      assert replies[0].Answered? && Continues(page) && MergePage(data, page.edges) == Ok(d);
      assert o == Prepend([pagination], rest);
      BulkRunRequests(replies[1..], next, d);
      forall i | 1 <= i < |o.sent| - 1
        ensures && replies[i].Answered? && Continues(replies[i].page)
                && o.sent[i + 1] == Some(replies[i].page.pageInfo.endCursor)
      {
        assert replies[i] == replies[1..][i - 1];
        assert o.sent[i + 1] == rest.sent[i];
      }
    }
  }

  /** A pass that succeeds ends on an answered page that does not continue. */
  lemma {:induction false} BulkRunStops(replies: seq<Reply<TeamsPage>>, pagination: Option<string>, data: OrgData)
    ensures var o := BulkRun(replies, pagination, data);
            o.result.Ok? ==>
              && 1 <= |o.sent| <= |replies|
              && replies[|o.sent| - 1].Answered?
              && !Continues(replies[|o.sent| - 1].page)
    decreases |replies|
  {
    var o := BulkRun(replies, pagination, data);
    if o.result.Ok? && Continues(replies[0].page) {
      var page := replies[0].page;
      var next := Some(page.pageInfo.endCursor);
      var d := MergePage(data, page.edges).value;
      var rest := BulkRun(replies[1..], next, d);
      BulkRunStops(replies[1..], next, d);
      assert replies[|o.sent| - 1] == replies[1..][|rest.sent| - 1];
    }
  }

  /**
   * The records of a whole pass, in terms of every team edge the pass read:
   * one record per team name seen; its lists are the normalised edges of
   * every sighting that fit, in order; it is flagged exactly when some
   * sighting did not fit.
   */
  lemma BulkPassContents(replies: seq<Reply<TeamsPage>>)
    ensures var o := BulkRun(replies, None, map[]);
            o.result.Ok? ==>
              && |o.sent| <= |replies|
              && var seen := TeamsOf(replies[..|o.sent|]);
                 && o.result.value.Keys == Names(seen)
                 && forall k :: k in o.result.value ==>
                      && NormaliseEdges(FittingMembers(seen, k)).Ok?
                      && NormaliseEdges(FittingInvitations(seen, k)).Ok?
                      && o.result.value[k] == TeamRecord(NormaliseEdges(FittingMembers(seen, k)).value,
                                                         NormaliseEdges(FittingInvitations(seen, k)).value,
                                                         AnyOverflow(seen, k))
  {
    var o := BulkRun(replies, None, map[]);
    BulkRunMerges(replies, None, map[]);
    if o.result.Ok? {
      var seen := TeamsOf(replies[..|o.sent|]);
      MergePageKeeps(map[], seen);
      assert {}  + Names(seen) == Names(seen);
      forall k | k in o.result.value
        ensures && NormaliseEdges(FittingMembers(seen, k)).Ok?
                && NormaliseEdges(FittingInvitations(seen, k)).Ok?
                && o.result.value[k] == TeamRecord(NormaliseEdges(FittingMembers(seen, k)).value,
                                                   NormaliseEdges(FittingInvitations(seen, k)).value,
                                                   AnyOverflow(seen, k))
      {
        MergePageContents(map[], seen, k);
        assert RecordFor(map[], k) == NewRecord;
        assert [] + NormaliseEdges(FittingMembers(seen, k)).value == NormaliseEdges(FittingMembers(seen, k)).value;
        assert [] + NormaliseEdges(FittingInvitations(seen, k)).value == NormaliseEdges(FittingInvitations(seen, k)).value;
      }
    }
  }
}
