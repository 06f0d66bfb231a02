/** Player queries (src/helpers/players.ts). */
module Players {
  import opened JsValues
  import opened Api
  import opened Utils

  const DefaultLimit: int := 10
  const DefaultOffset: int := 0

  /** The filter criteria of `getPlayers`; every field may be `undefined`. */
  datatype PlayerFilter = PlayerFilter(
    competitionId: Option<Scalar>,
    playerIds: Option<Mixed>,
    seasonYear: Option<Scalar>)

  /** At least one of the three criteria is truthy. */
  predicate HasCriterion(f: PlayerFilter) {
    Truthy(f.competitionId) || TruthyMixed(f.playerIds) || Truthy(f.seasonYear)
  }

  /** A competition id is given without a season year. */
  predicate CompetitionWithoutSeason(f: PlayerFilter) {
    Truthy(f.competitionId) && !Truthy(f.seasonYear)
  }

  /** The keys a player query may ever carry. */
  const PlayerKeys: set<string> := {"competitionId", "playerIds", "seasonYear", "limit", "offset"}

  /** The value a player query gives `key`, or `undefined` when the key is left out. */
  function PlayersValue(f: PlayerFilter, limit: int, offset: int, key: string): Option<string> {
    if key == "competitionId" then ScalarParam(f.competitionId)
    else if key == "playerIds" then MixedParam(f.playerIds)
    else if key == "seasonYear" then ScalarParam(f.seasonYear)
    else if key == "limit" then (if TruthyMixed(f.playerIds) then None else Some(IntToString(limit)))
    else if key == "offset" then (if TruthyMixed(f.playerIds) then None else Some(IntToString(offset)))
    else None
  }

  /** The query parameters of a player query, key by key: each filter key is
      present iff its field is truthy (player ids comma-joined by the codec, the
      rest by `toString`), `limit`/`offset` are present iff no player id is given
      and then hold the decimal window, and no other key appears. */
  predicate IsPlayersParameters(p: map<string, string>, f: PlayerFilter, limit: int, offset: int) {
    && (p.Keys <= PlayerKeys)
    && ("competitionId" in p <==> Truthy(f.competitionId))
    && ("competitionId" in p ==> p["competitionId"] == ToString(f.competitionId.value))
    && ("playerIds" in p <==> TruthyMixed(f.playerIds))
    && ("playerIds" in p ==> p["playerIds"] == ParseOptionalMixedArray(f.playerIds).value)
    && ("seasonYear" in p <==> Truthy(f.seasonYear))
    && ("seasonYear" in p ==> p["seasonYear"] == ToString(f.seasonYear.value))
    && ("limit" in p <==> !TruthyMixed(f.playerIds))
    && ("offset" in p <==> !TruthyMixed(f.playerIds))
    && ("limit" in p ==> p["limit"] == IntToString(limit) && p["offset"] == IntToString(offset))
  }

  /** The parameter record is determined by its description. */
  lemma PlayersParametersUnique(p: map<string, string>, q: map<string, string>, f: PlayerFilter, limit: int, offset: int)
    requires IsPlayersParameters(p, f, limit, offset) && IsPlayersParameters(q, f, limit, offset)
    ensures p == q
  {
    SameRecord(p, q, PlayerKeys);
  }

  /** A reference definition of the record: the known keys that have a value. */
  function PlayersParameters(f: PlayerFilter, limit: int, offset: int): (p: map<string, string>)
    ensures IsPlayersParameters(p, f, limit, offset)
  {
    map key | key in PlayerKeys && PlayersValue(f, limit, offset, key).Some? :: PlayersValue(f, limit, offset, key).value
  }

  /** What `getPlayers` requests. It is rejected, before any request, when the
      filter object is missing or has no truthy criterion, then when a
      competition id comes without a season year, and only then when the
      pagination window is invalid; otherwise it asks the player endpoint with
      the record IsPlayersParameters describes. */
  function PlayersRequest(filter: Option<PlayerFilter>, limit: Option<int>, offset: Option<int>): (r: Result<Request>)
    ensures filter.None? || !HasCriterion(filter.value) ==> r == Err(MissingFilter)
    ensures filter.Some? && HasCriterion(filter.value) && CompetitionWithoutSeason(filter.value) ==>
      r == Err(SeasonYearRequired)
    ensures r.Ok? <==>
      filter.Some? && HasCriterion(filter.value) && !CompetitionWithoutSeason(filter.value)
      && limit.GetOr(DefaultLimit) >= 1 && offset.GetOr(DefaultOffset) >= 0
    ensures r.Err? && filter.Some? && HasCriterion(filter.value) && !CompetitionWithoutSeason(filter.value) ==>
      ValidateLimitOffset(limit.GetOr(DefaultLimit), offset.GetOr(DefaultOffset)) == Fail(r.error)
    ensures r.Ok? ==> (r.value.endpoint == ApiPlayers && r.value.path == ""
      && IsPlayersParameters(r.value.params, filter.value, limit.GetOr(DefaultLimit), offset.GetOr(DefaultOffset)))
  {
    if filter.None? || !HasCriterion(filter.value) then Err(MissingFilter)
    else if CompetitionWithoutSeason(filter.value) then Err(SeasonYearRequired)
    else
      var lim, off := limit.GetOr(DefaultLimit), offset.GetOr(DefaultOffset);
      match ValidateLimitOffset(lim, off)
      case Fail(e) => Err(e)
      case Pass => Ok(Request(ApiPlayers, "", PlayersParameters(filter.value, lim, off)))
  }

  /** The parameter record of `getPlayers`, filled one conditional key at a time. */
  method AssemblePlayersParameters(f: PlayerFilter, limit: int, offset: int) returns (parameters: map<string, string>)
    ensures IsPlayersParameters(parameters, f, limit, offset)
  {
    parameters := map[];
    if Truthy(f.competitionId) {
      parameters := parameters["competitionId" := ToString(f.competitionId.value)];
    }
    if TruthyMixed(f.playerIds) {
      parameters := parameters["playerIds" := ParseOptionalMixedArray(f.playerIds).value];
    }
    if Truthy(f.seasonYear) {
      parameters := parameters["seasonYear" := ToString(f.seasonYear.value)];
    }
    if !TruthyMixed(f.playerIds) {
      parameters := parameters["limit" := IntToString(limit)];
      parameters := parameters["offset" := IntToString(offset)];
    }
  }

  /** `getPlayers`: the guards, then the parameter record filled key by key. */
  method GetPlayers(filter: Option<PlayerFilter>, limit: Option<int>, offset: Option<int>) returns (r: Result<Request>)
    ensures r == PlayersRequest(filter, limit, offset)
  {
    if filter.None? {
      return Err(MissingFilter);
    }
    var f := filter.value;
    if !Truthy(f.competitionId) && !TruthyMixed(f.playerIds) && !Truthy(f.seasonYear) {
      return Err(MissingFilter);
    }
    if Truthy(f.competitionId) && !Truthy(f.seasonYear) {
      return Err(SeasonYearRequired);
    }
    var lim := limit.GetOr(DefaultLimit);
    var off := offset.GetOr(DefaultOffset);
    var valid := ValidateLimitOffset(lim, off);
    if valid.Fail? {
      return Err(valid.error);
    }
    var parameters := AssemblePlayersParameters(f, lim, off);
    PlayersParametersUnique(parameters, PlayersParameters(f, lim, off), f, lim, off);
    return Ok(Request(ApiPlayers, "", parameters));
  }

  /** A season year alone is a valid player query, paginated with the defaults. */
  lemma SeasonAloneIsPaginated()
    ensures var r := PlayersRequest(Some(PlayerFilter(None, None, Some(Num(2024)))), None, None);
      r.Ok? && r.value.params == map["seasonYear" := "2024", "limit" := "10", "offset" := "0"]
  {
    var r := PlayersRequest(Some(PlayerFilter(None, None, Some(Num(2024)))), None, None);
    assert IntToString(2024) == "2024" && IntToString(10) == "10" && IntToString(0) == "0";
    PlayersParametersUnique(r.value.params, map["seasonYear" := "2024", "limit" := "10", "offset" := "0"], PlayerFilter(None, None, Some(Num(2024))), 10, 0);
  }
}
