# GitHub team membership fetcher: pagination and merge core

This project models the core of `fetch-team-members-v4.py`. That script
builds a map from each team of a GitHub organisation to the logins of the
team's members and of its pending invitations. It works in two phases,
both over the GraphQL API:

1. **Organisation-wide pass** (`get_initial_org_data`). It walks the
   organisation's team list page by page, with one cursor.
   - The first sighting of a team name creates its record.
   - A team whose members and invitations both fit on the page gets
     them appended to its lists.
   - A team where either field has more pages is flagged for a
     follow-up instead, and that sighting's edges are not kept.
2. **Single-team pass** (`get_extended_team_data`). A flagged team is
   fetched again on its own, with one cursor for members and one for
   invitations. Each cursor advances only when its own field reports
   more pages. The loop stops when neither field does.

`get_org_data` runs both passes. It rejects an empty organisation name
and replaces each flagged record with the result of the single-team
pass. Unflagged teams keep their own lists.

Supporting pieces:
- `user_edge_to_s` turns a user edge of either GraphQL shape into a
  lower-case login.
- `run_query` merges default chunk sizes of `"100"` under the caller's
  parameters.

## How the model is built

- **Modules.** One module per concern:
  - `Responses`: parsed shapes of the replies, and the errors;
  - `EdgeNormalizer`;
  - `Queries`: parameter merge, pagination clause, request parameters;
  - `BulkFetcher`, `FollowupFetcher`, `Orchestrator`;
  - `FollowupFix`: a corrected single-team pass (see "## Findings");
  - `Scenarios`: worked concrete runs;
  - `SeqFacts`: small facts about sequences;
  - `Wrappers`: `Option`/`Result`.
- **The endpoint** is a parameter. It is a sequence of replies, each an
  answered page or a transport fault, and each loop iteration consumes
  one. A pass that would send more requests than there are replies ends
  with `RepliesExhausted`.
- **The loops are methods with `while`/`for` loops**, as in the source:
  `GetInitialOrgData`, `AbsorbPage`, `GetExtendedTeamData` and
  `SettleAll` (the loop of `get_org_data`).
  - Each is proved equal to a recursive specification function
    (`BulkRun`, `MergePage`, `DeepRun`), or, for `SettleAll`, to a
    per-team contract.
  - The request-sending methods also return the exact parameter maps
    they sent, one per request. `GetOrgData` returns the
    organisation-wide requests, which are made for the organisation name,
    and, per flagged team, the requests of that team's own pass, which
    are made for the organisation name as given and the team's own name.
- **Lemmas** prove the properties the code promises about those
  functions, by induction.
- **Where the code and the fetcher's design notes disagree, the code is
  followed:**
  - A team name seen twice in the organisation-wide pass reuses its
    record (`fetch-team-members-v4.py:161-166`). It is not an error.
  - Because the record is reused, a team can fit on one team page and
    overflow on a later one. It then ends the organisation-wide pass
    flagged, with the earlier page's logins still in its lists, where the
    design notes say a flagged team is left empty. `BulkPassContents`
    states this case. The output is the same either way, because
    `GetOrgData` replaces a flagged record outright with the result of
    the single-team pass.
  - The team cursor advances only inside the per-team loop
    (`fetch-team-members-v4.py:159-171`). A page with no team edges
    therefore ends the pass, even if it reports more pages. That is why
    `Continues` asks for a non-empty page.
  - An absent cursor is sent as the empty string
    (`fetch-team-members-v4.py:152`, `fetch-team-members-v4.py:190-193`),
    not as a missing parameter.
- **A finished field is read again.** The intended behaviour is that each
  field's pages are read once and in order, whichever field finishes
  first. The code does otherwise:
  - Every request sends both clauses (`fetch-team-members-v4.py:198`).
  - A cursor moves only when its own field reports more pages
    (`fetch-team-members-v4.py:206-212`).
  - Both lists are extended on every page (`fetch-team-members-v4.py:202-203`).

  So when one field finishes before the other, the next request asks
  again for that field's last page, and the answer is appended once
  more. `Scenarios.FinishedFieldIsAskedAgain` works this out on a
  concrete endpoint. `GetExtendedTeamData` and `GetOrgData` model the
  script as written. `FollowupFix` gives the corrected pass and proves
  that it reads each page once; "## Findings" has the details.

## Model

| member | source | states |
|---|---|---|
| EdgeNormalizer.UserEdgeToS | fetch-team-members-v4.py:102-120 | A node's own `login` wins. Otherwise the invitee's login is used. The result is the lower-cased login. A node with neither key fails with `UnknownUserFormat`. An invitee without a login fails with `MissingInviteeLogin`. The result is Ok exactly when one of the two logins is present. |
| EdgeNormalizer.Lower | fetch-team-members-v4.py:115 | Lower-casing keeps the length, leaves no upper-case letter, changes exactly the upper-case letters, and maps each to the letter 32 code points on. |
| EdgeNormalizer.NormaliseEdges | fetch-team-members-v4.py:178-179 | Mapping `user_edge_to_s` over a list of edges succeeds exactly when every edge is a user edge. The result has one login per edge, in order. |
| EdgeNormalizer.NormaliseEdgesFirstError | fetch-team-members-v4.py:178-179 | When the mapping fails, the error is the first failing edge's error. |
| EdgeNormalizer.NormaliseEdgesAppend | fetch-team-members-v4.py:202-203 | Normalising two lists one after the other is normalising their concatenation. |
| Queries.MergedParams | fetch-team-members-v4.py:127-132 | The merged map has the three chunk keys plus the caller's keys. Each caller value wins, and a chunk key the caller did not give is `"100"`. |
| Queries.MergeParams | fetch-team-members-v4.py:127-132 | The default-then-update assignment computes exactly `MergedParams`. |
| Queries.RenderPagination | fetch-team-members-v4.py:171 | No cursor renders as the empty clause. A cursor `c` renders as `after:"c"`, with the cursor between prefix and closing quote. |
| Queries.RenderPaginationInjective | fetch-team-members-v4.py:207-211 | Distinct pagination states yield distinct clauses. |
| Queries.BulkQueryParamsShape | fetch-team-members-v4.py:157 | An organisation-wide request sends the lower-cased organisation name, the team clause and the default chunk sizes, and nothing else. |
| Queries.TeamQueryParamsShape | fetch-team-members-v4.py:198 | A single-team request sends the organisation name as given, the lower-cased team name, both clauses and the default chunk sizes, and nothing else. |
| BulkFetcher.MergeTeamEffect | fetch-team-members-v4.py:160-179 | One team edge touches only its own team's record. It creates the record at its first sighting and reuses it afterwards. If either field has more pages, the team is flagged and its lists are left unchanged. Otherwise both lists are extended by the normalised edges and the flag is left unchanged; this fails exactly when an edge is not a user edge. |
| BulkFetcher.AbsorbTeam | fetch-team-members-v4.py:160-179 | The imperative create, flag or extend step computes exactly `MergeTeam`. |
| BulkFetcher.MergePageKeeps | fetch-team-members-v4.py:159-179 | After a page, the record keys are the old keys plus every team name on the page. No existing record loses list entries or its flag. |
| BulkFetcher.MergePageAppend | fetch-team-members-v4.py:159-179 | Merging two lists of team edges in turn is merging their concatenation, and an error in the first list stops the merge. |
| BulkFetcher.MergePageContents | fetch-team-members-v4.py:159-179 | After merging team edges, a team's lists are its old lists followed by the normalised edges of every sighting that fit, in order. It is flagged exactly when it was already flagged or some sighting overflowed. |
| BulkFetcher.AbsorbPage | fetch-team-members-v4.py:159-179 | The per-page loop computes exactly `MergePage`. Another page is requested exactly when the page had a team edge and reported more teams. The next clause is then that page's end cursor; otherwise the clause is unchanged. |
| BulkFetcher.BulkRequests | fetch-team-members-v4.py:157 | Request `i` of the pass is sent with `BulkQueryParams` of the `i`-th clause. |
| BulkFetcher.GetInitialOrgData | fetch-team-members-v4.py:149-181 | The loop's result is the pass `BulkRun` predicts from the replies. The parameters it sends are those of `BulkRun`'s clauses, in order. |
| BulkFetcher.BulkRunRequests | fetch-team-members-v4.py:152-171 | The first request has no cursor. Each later request follows an answered page that had a team edge and more teams to come, and carries that page's end cursor. |
| BulkFetcher.BulkRunStops | fetch-team-members-v4.py:153-170 | A pass that succeeds ends on an answered page that has no team edge or no next page. |
| BulkFetcher.BulkRunMerges | fetch-team-members-v4.py:149-181 | A pass that succeeds consumed one answered reply per request. Its records are what merging the team edges of those pages, in order, gives. |
| BulkFetcher.BulkPassContents | fetch-team-members-v4.py:149-181 | After a whole pass there is one record per team name seen. Its lists are the normalised edges of each sighting that fit, in order. It is flagged exactly when some sighting had more member or invitation pages. |
| FollowupFetcher.TeamRequests | fetch-team-members-v4.py:198 | Request `i` of a single-team pass is sent with `TeamQueryParams` of the `i`-th pair of clauses. |
| FollowupFetcher.GetExtendedTeamData | fetch-team-members-v4.py:184-214 | The loop's result is the pass `DeepRun` predicts from the replies. The parameters it sends are those of `DeepRun`'s clause pairs, in order. |
| FollowupFetcher.DeepRunCollects | fetch-team-members-v4.py:196-203 | A pass that succeeds consumed one answered reply per request. Both lists are the normalised edges of every page read, concatenated in page order, with nothing removed or merged. |
| FollowupFetcher.DeepRunCursors | fetch-team-members-v4.py:190-212 | The first request has both clauses empty. Each later request follows a page on which some field had more pages. Each field's cursor moves to that page's end cursor only if that field had more pages; otherwise it keeps its previous value. |
| FollowupFetcher.DeepRunStops | fetch-team-members-v4.py:205-212 | A pass that succeeds ends on a page on which neither field has more pages. |
| Orchestrator.SettleTeam | fetch-team-members-v4.py:225-227 | A flagged record becomes the result of the single-team pass, whose requests are sent for the organisation name as given and the team's own name. Any other record becomes its own two lists and sends nothing. |
| Orchestrator.SettleAll | fetch-team-members-v4.py:224-229 | The loop succeeds exactly when every flagged team's own pass succeeds. It then keeps every team name, each flagged team holds its single-team result and every other team its lists. An error comes from some flagged team's pass. Exactly the flagged teams have been fetched on their own, each with its own pass's requests. |
| Orchestrator.GetOrgData | fetch-team-members-v4.py:217-229 | An empty organisation name is an error and sends nothing. An error of the organisation-wide pass is returned as is. The organisation-wide requests are those of that pass for the organisation name. The result is Ok exactly when the name is non-empty, that pass succeeds and every flagged team's own pass succeeds. It then has the same team names, each flagged team holds its single-team result and every other team its lists, and no record holds a flag. Exactly the flagged teams are fetched on their own, each with the requests of its pass for the organisation name and its own name. An error otherwise comes from some flagged team's pass. |
| FollowupFix.FixedRunField | fetch-team-members-v4.py:196-212 | Corrected pass, against an endpoint that serves each field by its own clause: each field still pending gets its pages appended exactly as its cursor walk yields them, and that walk reaches the field's last page. A field that is no longer pending is left unchanged. |
| FollowupFix.FixedPassReadsEachPageOnce | fetch-team-members-v4.py:184-214 | Corrected pass for one team, against such an endpoint: each list is every page of its field, from the first to the one without more pages, once and in order, whichever field finishes first. |
| Scenarios.TwoTeamPages | fetch-team-members-v4.py:149-181 | On two concrete team pages, a team split across both pages is merged into one record. An overflowing team is flagged with empty lists, and the second request carries the first page's end cursor. |
| Scenarios.FinishedFieldIsAskedAgain | fetch-team-members-v4.py:196-212 | A concrete endpoint serves two member pages and one invitation page. Against it, the pass as written sends the empty invitation clause twice and appends the invitation page twice, so the invitations are not that field's pages read once. |
| Scenarios.FixedPassOnSameEndpoint | fetch-team-members-v4.py:196-212 | Against the same endpoint, the corrected pass sends the same two requests and takes the invitation page once. |

## Left out

- The HTTP transport, the access token from the environment, the query
  templates' text expansion and JSON decoding are not modelled. Each
  reply is given as an already parsed page or as a fault: a non-success
  status, or an `errors` member in the reply body.
- Logging, argument parsing and writing the output file are not
  modelled. A failed run writes nothing; the model returns an error
  instead of an output.
- `fetch-team-members-v3.py` is not part of this model. It is a separate
  and older fetcher.
- Lower-casing covers ASCII letters only. Python's `str.lower` also maps
  many other characters.
- Termination is not proved for an endpoint that keeps reporting more
  pages. Each pass is bounded by the replies it is given, and it ends
  with `RepliesExhausted` when they run out.
- GetOrgData: the record keys are visited in an unspecified order, where
  Python uses insertion order. Two things can then differ when some
  flagged team's pass fails: which flagged team's error is reported, and
  which flagged teams are fetched before the failing one, and so which
  requests are sent. The output on success is the same.
- Reply shapes the code does not check are not modelled: a null
  `organization` or `team`, a null `login` or `invitee`, or a missing
  `pageInfo`. The script fails on them with a Python exception.
- The single-team request sends the lower-cased team name where GitHub
  expects the team's slug. How the endpoint treats that argument is part
  of the replies and is not modelled.

## Findings

| source | as written | input that shows it | evidently intended | confidence | as-written member | corrected member |
|---|---|---|---|---|---|---|
| fetch-team-members-v4.py:198-212 | A field that reported its last page keeps its clause. The next request fetches that page again, and lines 202-203 append its logins a second time. | A team with members on two pages and invitations on one page: the invitations come out as `["di", "di"]`. | Each field's pages are read once and in order, whichever field finishes first. | not executed; proved on the model | FollowupFetcher.DeepRun (Scenarios.FinishedFieldIsAskedAgain) | FollowupFix.FixedRun (FollowupFix.FixedPassReadsEachPageOnce) |

`GetExtendedTeamData` and `GetOrgData` still model the script as written,
so their output is the script's own. The corrected pass is a separate
function beside them.
