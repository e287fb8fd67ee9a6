/**
 * Small concrete runs of the two passes, worked out in full: a team split
 * across two team pages, a team too large for the team pages, and a
 * single-team pass in which one field finishes before the other.
 */
module Scenarios {

  import opened Wrappers
  import opened Responses
  import opened EdgeNormalizer
  import opened BulkFetcher
  import opened Queries
  import opened FollowupFetcher
  import opened FollowupFix

  function Member(login: string): Edge {
    Edge(Node(Some(login), None))
  }

  function Invited(login: string): Edge {
    Edge(Node(None, Some(Invitee(Some(login)))))
  }

  function LastPage(edges: seq<Edge>): Connection {
    Connection(PageInfo("end", false), edges)
  }

  lemma NormaliseOne(e: Edge)
    requires UserEdgeToS(e).Ok?
    ensures NormaliseEdges([e]) == Ok([UserEdgeToS(e).value])
  {
    assert [e][1..] == [];
    assert NormaliseEdges([e][1..]) == Ok([]);
    assert [UserEdgeToS(e).value] + [] == [UserEdgeToS(e).value];
  }

  const CoreFirst: TeamNode := TeamNode("Core", LastPage([Member("Ann")]), LastPage([]))
  const BigFirst: TeamNode := TeamNode("Big", Connection(PageInfo("m1", true), [Member("bo")]), LastPage([]))
  const CoreSecond: TeamNode := TeamNode("Core", LastPage([Member("cy")]), LastPage([Invited("Di")]))

  const AfterFirstPage: OrgData := map["Core" := TeamRecord(["ann"], [], false), "Big" := TeamRecord([], [], true)]
  const AfterSecondPage: OrgData := map["Core" := TeamRecord(["ann", "cy"], ["di"], false), "Big" := TeamRecord([], [], true)]

  lemma FirstTeamPage()
    ensures MergePage(map[], [CoreFirst, BigFirst]) == Ok(AfterFirstPage)
  {
    var d1 := map["Core" := TeamRecord(["ann"], [], false)];
    assert MergePage(map[], [CoreFirst]) == Ok(d1) by {
      assert [CoreFirst][..0] == [];
      NormaliseOne(Member("Ann"));
      assert UserEdgeToS(Member("Ann")).value == "ann";
      assert NormaliseEdges([]) == Ok([]);
      assert [] + ["ann"] == ["ann"];
      assert !Overflows(CoreFirst) && CoreFirst.members.edges == [Member("Ann")] && CoreFirst.invitations.edges == [];
      MergeTeamEffect(map[], CoreFirst);
      var e: seq<string> := [];
      assert e + e == e;
      assert MergeTeam(map[], CoreFirst).value.Keys == d1.Keys;
    }
    assert [CoreFirst, BigFirst][..1] == [CoreFirst];
    MergeTeamEffect(d1, BigFirst);
    assert MergeTeam(d1, BigFirst).value.Keys == AfterFirstPage.Keys;
  }

  lemma SecondTeamPage()
    ensures MergePage(AfterFirstPage, [CoreSecond]) == Ok(AfterSecondPage)
  {
    assert [CoreSecond][..0] == [];
    NormaliseOne(Member("cy"));
    NormaliseOne(Invited("Di"));
    assert UserEdgeToS(Member("cy")).value == "cy";
    assert UserEdgeToS(Invited("Di")).value == "di";
    assert ["ann"] + ["cy"] == ["ann", "cy"] && [] + ["di"] == ["di"];
    assert !Overflows(CoreSecond) && CoreSecond.members.edges == [Member("cy")];
    assert CoreSecond.invitations.edges == [Invited("Di")];
    assert RecordFor(AfterFirstPage, "Core") == TeamRecord(["ann"], [], false);
    MergeTeamEffect(AfterFirstPage, CoreSecond);
    var merged := MergeTeam(AfterFirstPage, CoreSecond).value;
    assert merged.Keys == AfterSecondPage.Keys;
    assert merged["Core"] == AfterSecondPage["Core"];
    assert merged["Big"] == AfterSecondPage["Big"];
    assert merged == AfterSecondPage;
    assert MergePage(AfterFirstPage, [CoreSecond]) == MergeTeam(AfterFirstPage, CoreSecond);
  }

  /**
   * Two team pages. "Core" appears on both and fits each time, so its two
   * sightings are merged into one record; "Big" has more members than fit,
   * so it is flagged and its partial members are not kept.
   */
  lemma TwoTeamPages()
    ensures var o := BulkRun([Answered(TeamsPage(PageInfo("t1", true), [CoreFirst, BigFirst])),
                              Answered(TeamsPage(PageInfo("t2", false), [CoreSecond]))], None, map[]);
            && o.sent == [None, Some("t1")]
            && o.result == Ok(map["Core" := TeamRecord(["ann", "cy"], ["di"], false),
                                  "Big" := TeamRecord([], [], true)])
  {
    FirstTeamPage();
    SecondTeamPage();
    var replies := [Answered(TeamsPage(PageInfo("t1", true), [CoreFirst, BigFirst])),
                    Answered(TeamsPage(PageInfo("t2", false), [CoreSecond]))];
    assert replies[1..] == [replies[1]];
    assert replies[1..][1..] == [];
  }

  const MembersFirst: Connection := Connection(PageInfo("m1", true), [Member("ann")])
  const MembersSecond: Connection := LastPage([Member("bo")])
  const InvitationsOnly: Connection := LastPage([Invited("di")])

  /** An endpoint with two member pages and one invitation page, each served by its own field's clause. */
  const MemberServer: FieldServer := c => if c == None then MembersFirst else MembersSecond
  const InvitationServer: FieldServer := c => InvitationsOnly

  /** What that endpoint answers to the two requests both passes send. */
  const TwoReplies: seq<Reply<TeamPage>> :=
    [Answered(TeamPage(MembersFirst, InvitationsOnly)), Answered(TeamPage(MembersSecond, InvitationsOnly))]

  /** The invitation field's walk from no clause is its one page. */
  lemma InvitationWalk()
    ensures FieldWalk(InvitationServer, None, 2) == [InvitationsOnly]
    ensures NormaliseEdges(EdgesOf(FieldWalk(InvitationServer, None, 2))) == Ok(["di"])
  {
    assert FieldWalk(InvitationServer, None, 2) == [InvitationsOnly] + [];
    assert EdgesOf([InvitationsOnly]) == InvitationsOnly.edges + EdgesOf([InvitationsOnly][1..]);
    assert [InvitationsOnly][1..] == [];
    assert InvitationsOnly.edges + [] == [Invited("di")];
    NormaliseOne(Invited("di"));
    assert Lower("di") == "di";
  }

  lemma NormaliseThree()
    ensures NormaliseEdges([Member("ann")]) == Ok(["ann"])
    ensures NormaliseEdges([Member("bo")]) == Ok(["bo"])
    ensures NormaliseEdges([Invited("di")]) == Ok(["di"])
  {
    assert Lower("ann") == "ann";
    assert Lower("bo") == "bo";
    assert Lower("di") == "di";
    NormaliseOne(Member("ann"));
    NormaliseOne(Member("bo"));
    NormaliseOne(Invited("di"));
  }

  /**
   * The single-team pass as written, where the members take two pages and
   * the invitations one. The invitations clause stays empty, so the second
   * request asks again for the first invitation page, and the endpoint's
   * answer is appended a second time: the invitations are not the
   * invitation field's pages read once.
   */
  lemma FinishedFieldIsAskedAgain()
    ensures var o := DeepRun(TwoReplies, Clauses(None, None), TeamLists([], []));
            && o.sent == [Clauses(None, None), Clauses(Some("m1"), None)]
            && Served(TwoReplies, o.sent, MemberServer, InvitationServer)
            && o.result == Ok(TeamLists(["ann", "bo"], ["di", "di"]))
            && !ReadOnce(InvitationServer, None, |o.sent|, [], o.result.value.invitations)
  {
    var page1 := TwoReplies[0].page;
    var page2 := TwoReplies[1].page;
    NormaliseThree();
    InvitationWalk();
    var grown := TeamLists(["ann"], ["di"]);
    assert [] + ["ann"] == ["ann"] && [] + ["di"] == ["di"];
    assert ["ann"] + ["bo"] == ["ann", "bo"] && ["di"] + ["di"] == ["di", "di"];
    assert Grow(TeamLists([], []), page1) == Ok(grown);
    assert NextClauses(Clauses(None, None), page1) == Clauses(Some("m1"), None);
    assert Grow(grown, page2) == Ok(TeamLists(["ann", "bo"], ["di", "di"]));
    assert TwoReplies[1..] == [Answered(page2)];
    assert TwoReplies[1..][1..] == [];
    assert DeepRun(TwoReplies[1..], Clauses(Some("m1"), None), grown)
        == Run(Ok(TeamLists(["ann", "bo"], ["di", "di"])), [Clauses(Some("m1"), None)]);
    assert ["di", "di"] != [] + ["di"];
  }

  /**
   * The corrected pass against the same endpoint sends the same two
   * requests and takes the invitation page once.
   */
  lemma FixedPassOnSameEndpoint()
    ensures var o := FixedPass(TwoReplies);
            && o.sent == [Clauses(None, None), Clauses(Some("m1"), None)]
            && Served(TwoReplies, o.sent, MemberServer, InvitationServer)
            && o.result == Ok(TeamLists(["ann", "bo"], ["di"]))
  {
    var page1 := TwoReplies[0].page;
    var page2 := TwoReplies[1].page;
    NormaliseThree();
    var grown := TeamLists(["ann"], ["di"]);
    assert [] + ["ann"] == ["ann"] && [] + ["di"] == ["di"];
    assert ["ann"] + ["bo"] == ["ann", "bo"];
    var e: seq<string> := [];
    assert ["di"] + e == ["di"];
    assert FixedGrow(TeamLists([], []), Pending(true, true), page1) == Ok(grown);
    assert StillPending(Pending(true, true), page1) == Pending(true, false);
    assert NextClauses(Clauses(None, None), page1) == Clauses(Some("m1"), None);
    assert FixedGrow(grown, Pending(true, false), page2) == Ok(TeamLists(["ann", "bo"], ["di"]));
    assert TwoReplies[1..] == [Answered(page2)];
    assert TwoReplies[1..][1..] == [];
    assert FixedRun(TwoReplies[1..], Clauses(Some("m1"), None), Pending(true, false), grown)
        == Run(Ok(TeamLists(["ann", "bo"], ["di"])), [Clauses(Some("m1"), None)]);
  }
}
