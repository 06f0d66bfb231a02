# uefa-api request layer, modelled in Dafny

This project models the request-building and response-classification core of
`uefa-api`, a typed TypeScript client for the UEFA football-data web API. Each
query function (`getMatches`, `getMatch`, `getMatchStats`, `getMatchEvents`,
`getLineups`, `getTeams`, `getTeam`, `getPlayers`, `getStandings`,
`getCompetitions`) does three things:

- it checks the caller's filter with JavaScript truthiness: at least one
  criterion, a season year whenever a competition id is given, a non-empty id;
- it checks the pagination window where the code does;
- it fills a `string → string` parameter record key by key.

`performApiRequest` then sends the request once and classifies the response.

Modules, one per source file plus two shared ones:

- `JsValues` (js_values.dfy): the JavaScript inputs. `Option` stands for
  `undefined`, `Scalar` for `string | number` (numbers are integers), and
  `Mixed` adds arrays of scalars. Also JavaScript truthiness (`""` and `0` are
  falsy, every array is truthy) and `toString`. An integer becomes its decimal
  form, with `ParseInt` as the inverse it is proved against.
- `Api` (api.dfy): the error conditions, `Result`, the `ApiError` envelope
  shape (src/api.d.ts:7-16), the abstract HTTP response `(ok, status, body)`,
  the endpoint constants, and a request. A request is an endpoint, a path
  suffix and a parameter map.
- `Utils` (utils.dfy): `parseOptionalMixedArray` with comma split as its
  partner, `validateLimitOffset`, and the classification of
  `performApiRequest`. `Send` sends a built request through a transport given
  as a function, or passes a rejection through without calling it.
- `Matches`, `Teams`, `Players`, `Standings` and `Competitions`: one module per
  helper file.

The four builders that fill their record one assignment at a time are
methods: `GetMatches`, `GetTeams`, `GetPlayers` and `GetStandings`.

- Each one's key-by-key assembly is its own method, for example
  `AssembleMatchesParameters`. It ensures the predicate (`IsMatchesParameters`
  and the like) that describes the record key by key.
- A reference function builds the same record as a map comprehension, and a
  uniqueness lemma shows the predicate determines the record.
- Each method is proved equal to its specification function (for example
  `MatchesRequest`). The other members and lemmas use that function.

The single-entity lookups `GetMatch` and `GetTeam` are functions of the
transport, so the "not found" check after the response is part of what they
state.

Where the code is easy to misread, the model follows the code:

- `getTeam` does not go through `getTeams`. It always sends `limit=1` and
  `offset=0`, and it fails on any result count other than one: zero results
  and two or more are both "not found" (src/helpers/teams.ts:91-98).
- The error-envelope check runs only after `response.ok`. The resulting error
  carries the envelope's title and message and nothing else; in particular no
  HTTP status (src/utils.ts:9-17).
- An empty array is truthy. `getMatches({matchId: []})` therefore sends
  `matchId=""` and drops `limit`/`offset`. An empty value is sent, not an
  absent key (src/helpers/matches.ts:67-69, 79-82).
- `getCompetitions(0)` sends `competitionIds=0`. The codec's `"0"` is truthy
  even though `0` is not (src/helpers/competitions.ts:14-15).

## Model

| member | source | states |
|---|---|---|
| `JsValues.IntToStringRoundTrip` | src/utils.ts:30 | an integer's `toString` is its decimal form: parsing it gives the integer back |
| `JsValues.IntToStringNoComma` | src/utils.ts:28-30 | an integer's string form is never empty and never contains a comma |
| `JsValues.ToStringEmpty` | src/utils.ts:30 | `toString` is empty only for `""`; the number `0` gives `"0"` |
| `Utils.ParseOptionalMixedArray` | src/utils.ts:21-31 | the result is `undefined` exactly when the input is `undefined` |
| `Utils.ParseListRoundTrip` | src/utils.ts:27-29 | for a non-empty array of comma-free elements, splitting the result on commas gives the element strings in the given order, with nothing sorted, merged or lost |
| `Utils.ParseNumberListRoundTrip` | src/utils.ts:27-30 | for a non-empty array of integers, each comma-separated piece of the result reads back as the integer at that position |
| `Utils.ParseEmptyResult` | src/utils.ts:27-30 | the codec gives `""` exactly for `""`, `[]` and `[""]` |
| `Utils.ScalarEncoding` | src/utils.ts:30 | a bare string is sent as itself; a bare integer as a non-empty, comma-free decimal that reads back as the integer |
| `Utils.SingletonListIsScalar` | src/utils.ts:27-30 | a one-element array and the bare scalar encode the same |
| `Utils.SplitJoin` | src/utils.ts:28 | comma split undoes comma join for a non-empty list of comma-free strings |
| `Utils.JoinEmpty` | src/utils.ts:28 | a comma join is empty only for no parts or a single empty part |
| `Utils.ValidateLimitOffset` | src/utils.ts:33-41 | fails iff limit < 1 or offset < 0; when both are bad the limit error is the one reported; no upper bound |
| `Utils.Classify` | src/utils.ts:9-18 | a non-ok response is a transport error carrying the HTTP status; an ok response with an `error` field is an API error with that error's title and message; anything else succeeds with the body unchanged |
| `Utils.ClassifyIgnoresBodyWhenNotOk` | src/utils.ts:9-12 | when the response is not ok, the body cannot change the outcome |
| `Utils.ApiFailureDropsStatus` | src/utils.ts:13-17 | the API error depends only on the envelope's title and message, not on any status |
| `Utils.Send` | src/utils.ts:3-19 | a rejected request keeps its error; for a built request, whatever the transport answers, the call succeeds iff the response is ok and carries no error envelope, returning the body unchanged; a non-ok response fails with its HTTP status; an error envelope in an ok response fails with the envelope's title and message |
| `Utils.RejectionSkipsTransport` | src/utils.ts:3-19 | a rejected request fails identically under any two transports, so it is never sent |
| `Utils.HttpFailureCarriesStatus` | src/utils.ts:9-11 | for any transport, a non-ok answer to a built request fails it with that answer's status, whatever its body |
| `Utils.EnvelopeAtOkFails` | src/utils.ts:12-17 | for any transport, an ok answer with an error envelope fails the built request with that envelope's title and message |
| `Matches.MatchesParameters` | src/helpers/matches.ts:63-83 | the reference record meets the key-by-key description of a match query |
| `Matches.MatchesParametersUnique` | src/helpers/matches.ts:63-83 | two records that both meet the match-query description are equal |
| `Matches.AssembleMatchesParameters` | src/helpers/matches.ts:63-83 | the record filled step by step has each of the five filter keys iff its field is truthy (ids comma-joined, the rest by `toString`), `limit`/`offset` iff `matchId` is falsy and then as decimals, `order` always, and no other key |
| `Matches.MatchesRequest` | src/helpers/matches.ts:38-86 | rejected iff the filter is missing or all five criteria are falsy, or a competition id comes without a season year (checked before pagination), or the window is invalid, in that order of precedence; otherwise a request to the match endpoint with the described record, under the defaults ASC, limit 10 and offset 0 |
| `Matches.GetMatches` | src/helpers/matches.ts:38-86 | the imperative builder produces exactly MatchesRequest |
| `Matches.MatchRequest` | src/helpers/matches.ts:95-99 | a falsy id is rejected; otherwise the request is exactly `{matchId, order: "ASC"}`, because the truthy id drops the limit 1 and offset 0 it passes |
| `Matches.FirstMatch` | src/helpers/matches.ts:100-103 | no results is "not found"; otherwise the first result |
| `Matches.GetMatch` | src/helpers/matches.ts:95-104 | a falsy id never reaches the transport; otherwise the call succeeds iff the response is ok, has no error envelope and holds a match, and then returns the first one; an empty list is "not found"; a non-ok response fails with its HTTP status and an error envelope with its title and message, never as "not found" |
| `Matches.MatchLookupEnvelope` | src/helpers/matches.ts:99 | an error envelope at HTTP 200 fails `getMatch` with that API error |
| `Matches.MatchStatsRequest` | src/helpers/matches.ts:112-119 | a falsy id is rejected; otherwise the stats endpoint at `/<id>` with an empty record |
| `Matches.LineupsRequest` | src/helpers/matches.ts:156-161 | a falsy id is rejected; otherwise the match endpoint at `/<id>/lineups` with an empty record |
| `Matches.MatchEventsRequest` | src/helpers/matches.ts:130-148 | a falsy id is rejected, nothing else is validated; otherwise `/<id>/events` with exactly `filter=LINEUP`, the order, and `limit`/`offset` the decimal forms of the arguments (defaults 10 and 0), which read back as them, negative ones included |
| `Matches.SubResourcePathDeterminesId` | src/helpers/matches.ts:139-141 | a sub-resource path determines the id's string, so distinct ids address distinct paths |
| `Matches.MatchIdDropsPagination` | src/helpers/matches.ts:79-82 | with a match id, `limit` and `offset` are absent even when given |
| `Matches.EmptyMatchIdList` | src/helpers/matches.ts:67-82 | `matchId: []` is a criterion: it sends `matchId=""` and `order` only |
| `Matches.SeasonCheckedBeforeWindow` | src/helpers/matches.ts:55-61 | `{competitionId: "5"}` reports the missing season even with an invalid window; with `seasonYear: "2024"` the request is built |
| `Teams.TeamsParameters` | src/helpers/teams.ts:55-74 | the reference record meets the key-by-key description of a team query |
| `Teams.TeamsParametersUnique` | src/helpers/teams.ts:55-74 | two records that both meet the team-query description are equal |
| `Teams.AssembleTeamsParameters` | src/helpers/teams.ts:55-74 | the record filled step by step has each filter key iff its field is truthy (round and team ids comma-joined), `limit`/`offset` iff `teamIds` is falsy and then as decimals, and no other key |
| `Teams.TeamsRequest` | src/helpers/teams.ts:31-77 | rejected iff the filter is missing or all five criteria are falsy, then for a competition id without a season year, and only then for an invalid window; otherwise the team endpoint with the described record |
| `Teams.GetTeams` | src/helpers/teams.ts:31-77 | the imperative builder produces exactly TeamsRequest |
| `Teams.TeamRequest` | src/helpers/teams.ts:86-95 | a falsy id is rejected; otherwise exactly `{teamIds: String(id), limit: "1", offset: "0"}` |
| `Teams.SoleTeam` | src/helpers/teams.ts:96-99 | succeeds iff there is exactly one result, returning it; zero or several results are "not found" |
| `Teams.GetTeam` | src/helpers/teams.ts:86-100 | a falsy id never reaches the transport; otherwise the call succeeds iff the response is ok, has no error envelope and holds exactly one team, returning it; any other count is "not found"; a non-ok response fails with its HTTP status and an error envelope with its title and message |
| `Teams.TeamLookupIsNotTeamsQuery` | src/helpers/teams.ts:91-95 | for one id, `getTeams` drops pagination while `getTeam` always sends it |
| `Teams.EmptyAnswerTeamVersusTeams` | src/helpers/teams.ts:96-98 | against a transport that answers `[]`, `getTeam("999")` is "not found" while `getTeams({teamIds: "999"})` succeeds with no teams |
| `Teams.TwoResultsNotFound` | src/helpers/teams.ts:96-98 | two results also fail the lookup |
| `Players.PlayersParameters` | src/helpers/players.ts:49-62 | the reference record meets the key-by-key description of a player query |
| `Players.PlayersParametersUnique` | src/helpers/players.ts:49-62 | two records that both meet the player-query description are equal |
| `Players.AssemblePlayersParameters` | src/helpers/players.ts:49-62 | the record filled step by step has each filter key iff its field is truthy (player ids comma-joined), `limit`/`offset` iff `playerIds` is falsy, and no other key |
| `Players.PlayersRequest` | src/helpers/players.ts:29-65 | rejected iff the filter is missing or all three criteria are falsy, then for a competition id without a season year, and only then for an invalid window; otherwise the player endpoint with the described record |
| `Players.GetPlayers` | src/helpers/players.ts:29-65 | the imperative builder produces exactly PlayersRequest |
| `Players.SeasonAloneIsPaginated` | src/helpers/players.ts:56-62 | `{seasonYear: 2024}` sends `seasonYear=2024`, `limit=10` and `offset=0` |
| `Standings.StandingsParameters` | src/helpers/standings.ts:41-56 | the reference record meets the key-by-key description of a standings query |
| `Standings.StandingsParametersUnique` | src/helpers/standings.ts:41-56 | two records that both meet the standings-query description are equal |
| `Standings.AssembleStandingsParameters` | src/helpers/standings.ts:41-56 | the record filled step by step has each of the five filter keys iff its field is truthy (group ids comma-joined, the round id through the codec, the rest by `toString`), and no other key |
| `Standings.StandingsRequest` | src/helpers/standings.ts:21-59 | rejected iff the filter is missing or all five criteria are falsy, or a competition id comes without a season year; otherwise the standings endpoint with the described record |
| `Standings.GetStandings` | src/helpers/standings.ts:21-59 | the imperative builder produces exactly StandingsRequest |
| `Standings.StandingsNeverPaginated` | src/helpers/standings.ts:41-58 | a standings request never has `limit` or `offset` |
| `Standings.CompetitionNeedsSeason` | src/helpers/standings.ts:35-39 | `{competitionId: "5"}` is rejected; with `seasonYear: "2024"` it is built |
| `Competitions.CompetitionsRequest` | src/helpers/competitions.ts:11-17 | always built, with no validation; only `competitionIds` can appear, exactly when the codec's result is a non-empty string, and then it holds that result |
| `Competitions.CompetitionsUnfiltered` | src/helpers/competitions.ts:14-15 | the record is empty exactly for `undefined`, `""`, `[]` and `[""]` |
| `Competitions.ZeroIsSent` | src/helpers/competitions.ts:14-15 | `getCompetitions(0)` sends `competitionIds=0` |
| `Competitions.CompetitionIdsRoundTrip` | src/helpers/competitions.ts:14-16 | for a list of comma-free ids, splitting the sent value on commas gives back the ids in order |

## Left out

- The network call, `await response.json()` and JSON parse failures (src/utils.ts:8, 12) are I/O. The response is an input: a transport function, or a `Response` value.
- The query string built by `URLSearchParams(...).toString()` (src/utils.ts:7) is form-urlencoded serialisation by a library. The parameter map is the model's output.
- Async and Promise semantics are left out. The model stops at the produced request or the classified result.
- Non-integer numbers (NaN, Infinity, fractions, exponent notation of `toString`) are left out. Numbers are unbounded `int`, so the loss of precision of integers above 2^53 before `toString` is not modelled either.
- The insertion order of keys in the JavaScript parameter object, which sets the order of the query-string pairs, is lost: the record is a `map`.
- The values of the endpoint constants are left out, because `../constants` is not part of this model. They are distinct constructors of `Endpoint`, and a request carries the path text appended to its constant.
- The exact wording of error messages is left out. Each thrown error is an `Error` constructor.
- `getLivescore` (src/helpers/livescore.ts) is left out: it is a one-line call of `performApiRequest` with an empty record and no logic of its own.
- src/index.ts (re-exports only) and the data-transfer record types of src/api.d.ts are left out. Only the `ApiError` shape is mirrored.
- The `order` field of the match filter's type (src/helpers/matches.ts:19) is left out: the code never reads it.
- Filter fields are modelled with their declared TypeScript types. A JavaScript caller passing a value outside them (an array for `competitionId`, `null`, an object) is not modelled.
- Utils.Classify: the model assumes the decoded body is not `null` and that its `error` field is either absent or an object with string `title` and `message`. In the source, a `null` body or `error: null` throws a `TypeError` (src/utils.ts:13-15), and any other non-object `error` yields an error message with `undefined` in place of title and message; neither case is modelled.
