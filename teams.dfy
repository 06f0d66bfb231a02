/** Team queries (src/helpers/teams.ts): the filtered list query and the
    lookup of one team by id, which sends its own fixed request. */
module Teams {
  import opened JsValues
  import opened Api
  import opened Utils

  const DefaultLimit: int := 10
  const DefaultOffset: int := 0

  /** The filter criteria of `getTeams`; every field may be `undefined`. */
  datatype TeamFilter = TeamFilter(
    competitionId: Option<Scalar>,
    roundIds: Option<Mixed>,
    teamIds: Option<Mixed>,
    associationId: Option<Scalar>,
    seasonYear: Option<Scalar>)

  /** At least one of the five criteria is truthy. */
  predicate HasCriterion(f: TeamFilter) {
    Truthy(f.competitionId) || TruthyMixed(f.roundIds) || TruthyMixed(f.teamIds)
    || Truthy(f.associationId) || Truthy(f.seasonYear)
  }

  /** A competition id is given without a season year. */
  predicate CompetitionWithoutSeason(f: TeamFilter) {
    Truthy(f.competitionId) && !Truthy(f.seasonYear)
  }

  /** The keys a team query may ever carry. */
  const TeamKeys: set<string> :=
    {"competitionId", "roundIds", "teamIds", "associationId", "seasonYear", "limit", "offset"}

  /** The value a team query gives `key`, or `undefined` when the key is left out. */
  function TeamsValue(f: TeamFilter, limit: int, offset: int, key: string): Option<string> {
    if key == "competitionId" then ScalarParam(f.competitionId)
    else if key == "roundIds" then MixedParam(f.roundIds)
    else if key == "teamIds" then MixedParam(f.teamIds)
    else if key == "associationId" then ScalarParam(f.associationId)
    else if key == "seasonYear" then ScalarParam(f.seasonYear)
    else if key == "limit" then (if TruthyMixed(f.teamIds) then None else Some(IntToString(limit)))
    else if key == "offset" then (if TruthyMixed(f.teamIds) then None else Some(IntToString(offset)))
    else None
  }

  /** The query parameters of a team query, key by key: each filter key is
      present iff its field is truthy (round and team ids comma-joined by the
      codec, the rest by `toString`), `limit`/`offset` are present iff no team id
      is given and then hold the decimal window, and no other key appears. */
  predicate IsTeamsParameters(p: map<string, string>, f: TeamFilter, limit: int, offset: int) {
    && (p.Keys <= TeamKeys)
    && ("competitionId" in p <==> Truthy(f.competitionId))
    && ("competitionId" in p ==> p["competitionId"] == ToString(f.competitionId.value))
    && ("roundIds" in p <==> TruthyMixed(f.roundIds))
    && ("roundIds" in p ==> p["roundIds"] == ParseOptionalMixedArray(f.roundIds).value)
    && ("teamIds" in p <==> TruthyMixed(f.teamIds))
    && ("teamIds" in p ==> p["teamIds"] == ParseOptionalMixedArray(f.teamIds).value)
    && ("associationId" in p <==> Truthy(f.associationId))
    && ("associationId" in p ==> p["associationId"] == ToString(f.associationId.value))
    && ("seasonYear" in p <==> Truthy(f.seasonYear))
    && ("seasonYear" in p ==> p["seasonYear"] == ToString(f.seasonYear.value))
    && ("limit" in p <==> !TruthyMixed(f.teamIds))
    && ("offset" in p <==> !TruthyMixed(f.teamIds))
    && ("limit" in p ==> p["limit"] == IntToString(limit) && p["offset"] == IntToString(offset))
  }

  /** The parameter record is determined by its description. */
  lemma TeamsParametersUnique(p: map<string, string>, q: map<string, string>, f: TeamFilter, limit: int, offset: int)
    requires IsTeamsParameters(p, f, limit, offset) && IsTeamsParameters(q, f, limit, offset)
    ensures p == q
  {
    SameRecord(p, q, TeamKeys);
  }

  /** A reference definition of the record: the known keys that have a value. */
  function TeamsParameters(f: TeamFilter, limit: int, offset: int): (p: map<string, string>)
    ensures IsTeamsParameters(p, f, limit, offset)
  {
    map key | key in TeamKeys && TeamsValue(f, limit, offset, key).Some? :: TeamsValue(f, limit, offset, key).value
  }

  /** What `getTeams` requests. It is rejected, before any request, when the
      filter object is missing or has no truthy criterion, then when a
      competition id comes without a season year, and only then when the
      pagination window is invalid; otherwise it asks the team endpoint with the
      record IsTeamsParameters describes. */
  function TeamsRequest(filter: Option<TeamFilter>, limit: Option<int>, offset: Option<int>): (r: Result<Request>)
    ensures filter.None? || !HasCriterion(filter.value) ==> r == Err(MissingFilter)
    ensures filter.Some? && HasCriterion(filter.value) && CompetitionWithoutSeason(filter.value) ==>
      r == Err(SeasonYearRequired)
    ensures r.Ok? <==>
      filter.Some? && HasCriterion(filter.value) && !CompetitionWithoutSeason(filter.value)
      && limit.GetOr(DefaultLimit) >= 1 && offset.GetOr(DefaultOffset) >= 0
    ensures r.Err? && filter.Some? && HasCriterion(filter.value) && !CompetitionWithoutSeason(filter.value) ==>
      ValidateLimitOffset(limit.GetOr(DefaultLimit), offset.GetOr(DefaultOffset)) == Fail(r.error)
    ensures r.Ok? ==> (r.value.endpoint == ApiTeams && r.value.path == ""
      && IsTeamsParameters(r.value.params, filter.value, limit.GetOr(DefaultLimit), offset.GetOr(DefaultOffset)))
  {
    if filter.None? || !HasCriterion(filter.value) then Err(MissingFilter)
    else if CompetitionWithoutSeason(filter.value) then Err(SeasonYearRequired)
    else
      var lim, off := limit.GetOr(DefaultLimit), offset.GetOr(DefaultOffset);
      match ValidateLimitOffset(lim, off)
      case Fail(e) => Err(e)
      case Pass => Ok(Request(ApiTeams, "", TeamsParameters(filter.value, lim, off)))
  }

  /** The parameter record of `getTeams`, filled one conditional key at a time. */
  method AssembleTeamsParameters(f: TeamFilter, limit: int, offset: int) returns (parameters: map<string, string>)
    ensures IsTeamsParameters(parameters, f, limit, offset)
  {
    parameters := map[];
    if Truthy(f.competitionId) {
      parameters := parameters["competitionId" := ToString(f.competitionId.value)];
    }
    if TruthyMixed(f.roundIds) {
      parameters := parameters["roundIds" := ParseOptionalMixedArray(f.roundIds).value];
    }
    if TruthyMixed(f.teamIds) {
      parameters := parameters["teamIds" := ParseOptionalMixedArray(f.teamIds).value];
    }
    if Truthy(f.associationId) {
      parameters := parameters["associationId" := ToString(f.associationId.value)];
    }
    if Truthy(f.seasonYear) {
      parameters := parameters["seasonYear" := ToString(f.seasonYear.value)];
    }
    if !TruthyMixed(f.teamIds) {
      parameters := parameters["limit" := IntToString(limit)];
      parameters := parameters["offset" := IntToString(offset)];
    }
  }

  /** `getTeams`: the guards, then the parameter record filled key by key. */
  method GetTeams(filter: Option<TeamFilter>, limit: Option<int>, offset: Option<int>) returns (r: Result<Request>)
    ensures r == TeamsRequest(filter, limit, offset)
  {
    if filter.None? {
      return Err(MissingFilter);
    }
    var f := filter.value;
    if !Truthy(f.competitionId) && !TruthyMixed(f.roundIds) && !TruthyMixed(f.teamIds)
      && !Truthy(f.associationId) && !Truthy(f.seasonYear)
    {
      return Err(MissingFilter);
    }
    if Truthy(f.competitionId) && !Truthy(f.seasonYear) {
      return Err(SeasonYearRequired);
    }
    var lim := limit.GetOr(DefaultLimit);
    var off := offset.GetOr(DefaultOffset);
    var valid := ValidateLimitOffset(lim, off);
    if valid.Fail? {
      return Err(valid.error);
    }
    var parameters := AssembleTeamsParameters(f, lim, off);
    TeamsParametersUnique(parameters, TeamsParameters(f, lim, off), f, lim, off);
    return Ok(Request(ApiTeams, "", parameters));
  }

  // ---------------------------------------------------------------------------
  // getTeam

  /** The request `getTeam` sends: a falsy id is rejected; otherwise the team
      endpoint is asked directly -- not through the list query -- with exactly
      the id, limit `"1"` and offset `"0"`. */
  function TeamRequest(teamId: Scalar): (r: Result<Request>)
    ensures r.Err? <==> !ScalarTruthy(teamId)
    ensures r.Err? ==> r.error == MissingId
    ensures r.Ok? ==> r.value.endpoint == ApiTeams && r.value.path == ""
    ensures r.Ok? ==> r.value.params == map["teamIds" := ToString(teamId), "limit" := "1", "offset" := "0"]
    ensures r.Ok? ==> ParseInt(r.value.params["limit"]) == 1 && ParseInt(r.value.params["offset"]) == 0
  {
    if !ScalarTruthy(teamId) then Err(MissingId)
    else Ok(Request(ApiTeams, "", map["teamIds" := ToString(teamId), "limit" := "1", "offset" := "0"]))
  }

  /** The post-response check of `getTeam`: anything but exactly one result --
      none, or two and more -- is "not found". */
  function SoleTeam<T>(results: seq<T>): (r: Result<T>)
    ensures r.Ok? <==> |results| == 1
    ensures r.Err? ==> r.error == NotFound
    ensures r.Ok? ==> r.value == results[0]
  {
    if |results| != 1 then Err(NotFound) else Ok(results[0])
  }

  /** `getTeam` against a transport: a falsy id never reaches the transport;
      otherwise the fixed request is sent once, and the call succeeds exactly
      when the response is ok, carries no error envelope and holds exactly one
      team, which it returns. */
  function GetTeam<T>(teamId: Scalar, transport: Request -> Response<seq<T>>): (r: Result<T>)
    ensures !ScalarTruthy(teamId) ==> r == Err(MissingId)
    ensures ScalarTruthy(teamId) ==>
      var response := transport(Request(ApiTeams, "", map["teamIds" := ToString(teamId), "limit" := "1", "offset" := "0"]));
      && (r.Ok? <==> response.ok && response.body.Payload? && |response.body.value| == 1)
      && (r.Ok? ==> r.value == response.body.value[0])
      && (response.ok && response.body.Payload? && |response.body.value| != 1 ==> r == Err(NotFound))
      && (!response.ok ==> r == Err(HttpError(response.status)))
      && (response.ok && response.body.ErrorEnvelope? ==>
            r == Err(ApiFailure(response.body.error.title, response.body.error.message)))
  {
    var results :- Send(TeamRequest(teamId), transport);
    SoleTeam(results)
  }

  // ---------------------------------------------------------------------------
  // Consequences

  /** `getTeam` does not route through `getTeams`: for the same id, the list query
      drops pagination while the single lookup always sends it. */
  lemma TeamLookupIsNotTeamsQuery(teamId: Scalar)
    requires ScalarTruthy(teamId)
    ensures var list := TeamsRequest(Some(TeamFilter(None, None, Some(Single(teamId)), None, None)), Some(1), Some(0));
      list.Ok? && TeamRequest(teamId).Ok?
      && "limit" !in list.value.params && "limit" in TeamRequest(teamId).value.params
  {
  }

  /** Against a transport that answers every request with an empty list, looking
      up team "999" is "not found", while the list query for it succeeds with no
      teams. */
  lemma EmptyAnswerTeamVersusTeams<T>()
    ensures GetTeam<T>(Str("999"), _ => Response(true, 200, Payload([]))) == Err(NotFound)
    ensures Send<seq<T>>(TeamsRequest(Some(TeamFilter(None, None, Some(Single(Str("999"))), None, None)), None, None),
      _ => Response(true, 200, Payload([]))) == Ok([])
  {
  }

  /** Two teams for one id fail the lookup as well. */
  lemma TwoResultsNotFound<T>(a: T, b: T)
    ensures GetTeam<T>(Num(7), _ => Response(true, 200, Payload([a, b]))) == Err(NotFound)
  {
  }
}
