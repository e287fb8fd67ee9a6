/**
 * The whole run: the organisation-wide pass, then the single-team pass for
 * every flagged team, whose result replaces that team's record outright.
 */
module Orchestrator {

  import opened Wrappers
  import opened Queries
  import opened Responses
  import opened BulkFetcher
  import opened FollowupFetcher

  /** The mapping that is written out: team name to its two lists, with no flag. */
  type Output = map<string, TeamLists>

  /** The single-team pass of `team`, against that team's replies. */
  function TeamPass(teamReplies: string -> seq<Reply<TeamPage>>, team: string): Outcome<TeamLists> {
    DeepRun(teamReplies(team), Clauses(None, None), TeamLists([], [])).result
  }

  /** The output record of team `k` is its single-team result if it was flagged, otherwise its own two lists. */
  predicate Settled(data: OrgData, teamReplies: string -> seq<Reply<TeamPage>>, k: string, lists: TeamLists)
    requires k in data
  {
    if data[k].followup then TeamPass(teamReplies, k) == Ok(lists)
    else lists == TeamLists(data[k].members, data[k].invitations)
  }

  /** Every flagged team's single-team pass succeeds. */
  predicate FollowupsSucceed(data: OrgData, teamReplies: string -> seq<Reply<TeamPage>>) {
    forall k :: k in data && data[k].followup ==> TeamPass(teamReplies, k).Ok?
  }

  /** Some flagged team's single-team pass fails with error `e`. */
  predicate FollowupFails(data: OrgData, teamReplies: string -> seq<Reply<TeamPage>>, e: FetchError) {
    exists k :: k in data && data[k].followup && TeamPass(teamReplies, k) == Err(e)
  }

  /** Every team of `out` is a team of `data`, settled as `Settled` says. */
  predicate AllSettled(data: OrgData, teamReplies: string -> seq<Reply<TeamPage>>, out: Output) {
    && out.Keys <= data.Keys
    && forall k :: k in out ==> Settled(data, teamReplies, k, out[k])
  }

  /** The teams the organisation-wide pass flagged for a follow-up. */
  function Flagged(data: OrgData): set<string> {
    set k | k in data && data[k].followup
  }

  /** Settling one more team adds it to the teams fetched on their own exactly when it is flagged. */
  lemma FlaggedStep(data: OrgData, remaining: set<string>, teamName: string)
    requires teamName in remaining && remaining <= data.Keys
    ensures Flagged(data) - (remaining - {teamName})
            == (Flagged(data) - remaining) + (if data[teamName].followup then {teamName} else {})
  {
  }

  /** The parameters of the requests of team `k`'s single-team pass. */
  function TeamTrace(orgname: string, teamReplies: string -> seq<Reply<TeamPage>>, k: string): seq<Params> {
    TeamRequests(orgname, k, DeepRun(teamReplies(k), Clauses(None, None), TeamLists([], [])).sent)
  }

  /** Every team in `traces` is a flagged team, and its requests are those of its own single-team pass. */
  predicate TracesMatch(orgname: string, data: OrgData, teamReplies: string -> seq<Reply<TeamPage>>,
                        traces: map<string, seq<Params>>) {
    && traces.Keys <= Flagged(data)
    && forall k :: k in traces ==> traces[k] == TeamTrace(orgname, teamReplies, k)
  }

  /**
   * What one record of the pass turns into: a flagged team is fetched again
   * on its own, with the organisation name as given and its own name; any
   * other keeps its lists and sends nothing.
   */
  method SettleTeam(orgname: string, teamName: string, rec: TeamRecord, replies: seq<Reply<TeamPage>>)
    returns (r: Outcome<TeamLists>, requests: seq<Params>)
    ensures rec.followup ==> r == DeepRun(replies, Clauses(None, None), TeamLists([], [])).result
    ensures rec.followup ==> requests == TeamRequests(orgname, teamName, DeepRun(replies, Clauses(None, None), TeamLists([], [])).sent)
    ensures !rec.followup ==> r == Ok(TeamLists(rec.members, rec.invitations)) && requests == []
  {
    if rec.followup {
      r, requests := GetExtendedTeamData(orgname, teamName, replies);
    } else {
      r, requests := Ok(TeamLists(rec.members, rec.invitations)), [];
    }
  }

  /**
   * The loop over the records of the pass: each team is settled in turn, and
   * the first failing single-team pass ends the run with its error.
   */
  method SettleAll(orgname: string, data: OrgData, teamReplies: string -> seq<Reply<TeamPage>>)
    returns (r: Outcome<Output>, teamRequests: map<string, seq<Params>>)
    ensures r.Ok? <==> FollowupsSucceed(data, teamReplies)
    ensures r.Ok? ==> r.value.Keys == data.Keys && AllSettled(data, teamReplies, r.value)
    ensures r.Err? ==> FollowupFails(data, teamReplies, r.error)
    ensures TracesMatch(orgname, data, teamReplies, teamRequests)
    ensures r.Ok? ==> teamRequests.Keys == Flagged(data)
  {
    teamRequests := map[];
    var out: Output := map[];
    var remaining := data.Keys;
    while remaining != {}
      invariant remaining <= data.Keys
      invariant out.Keys == data.Keys - remaining
      invariant AllSettled(data, teamReplies, out)
      invariant TracesMatch(orgname, data, teamReplies, teamRequests)
      invariant teamRequests.Keys == Flagged(data) - remaining
      decreases remaining
    {
      var teamName :| teamName in remaining;
      FlaggedStep(data, remaining, teamName);
      remaining := remaining - {teamName};
      var settled, requests := SettleTeam(orgname, teamName, data[teamName], teamReplies(teamName));
      if data[teamName].followup {
        assert requests == TeamTrace(orgname, teamReplies, teamName);
        teamRequests := teamRequests[teamName := requests];
        assert settled == TeamPass(teamReplies, teamName);
      }
      if settled.Err? {
        return Err(settled.error), teamRequests;
      }
      assert Settled(data, teamReplies, teamName, settled.value);
      out := out[teamName := settled.value];
    }
    assert FollowupsSucceed(data, teamReplies) by {
      forall k | k in data && data[k].followup ensures TeamPass(teamReplies, k).Ok? {
        assert Settled(data, teamReplies, k, out[k]);
      }
    }
    return Ok(out), teamRequests;
  }

  /**
   * The run against an organisation whose endpoint answers the
   * organisation-wide requests with `orgReplies` and the requests about team
   * `t` with `teamReplies(t)`. Also returns the parameters of the
   * organisation-wide requests and, per team fetched on its own, those of
   * its requests.
   */
  method GetOrgData(orgname: string, orgReplies: seq<Reply<TeamsPage>>, teamReplies: string -> seq<Reply<TeamPage>>)
    returns (r: Outcome<Output>, orgRequests: seq<Params>, teamRequests: map<string, seq<Params>>)
    ensures orgname == "" ==> r == Err(MissingOrgName) && orgRequests == [] && teamRequests == map[]
    ensures orgname != "" ==> orgRequests == BulkRequests(orgname, BulkRun(orgReplies, None, map[]).sent)
    ensures orgname != "" && BulkPass(orgReplies).Err? ==> r == Err(BulkPass(orgReplies).error) && teamRequests == map[]
    ensures r.Ok? <==> orgname != "" && BulkPass(orgReplies).Ok? && FollowupsSucceed(BulkPass(orgReplies).value, teamReplies)
    ensures r.Ok? ==> r.value.Keys == BulkPass(orgReplies).value.Keys
    ensures r.Ok? ==> AllSettled(BulkPass(orgReplies).value, teamReplies, r.value)
    ensures r.Err? && orgname != "" && BulkPass(orgReplies).Ok? ==> FollowupFails(BulkPass(orgReplies).value, teamReplies, r.error)
    ensures orgname != "" && BulkPass(orgReplies).Ok? ==> TracesMatch(orgname, BulkPass(orgReplies).value, teamReplies, teamRequests)
    ensures r.Ok? ==> teamRequests.Keys == Flagged(BulkPass(orgReplies).value)
  {
    if orgname == "" {
      return Err(MissingOrgName), [], map[];
    }
    var orgData;
    orgData, orgRequests := GetInitialOrgData(orgname, orgReplies);
    if orgData.Err? {
      return Err(orgData.error), orgRequests, map[];
    }
    r, teamRequests := SettleAll(orgname, orgData.value, teamReplies);
  }
}
