/** Match queries (src/helpers/matches.ts): the filtered list query, the
    single-match lookup built on it, and the three id-scoped sub-resources. */
module Matches {
  import opened JsValues
  import opened Api
  import opened Utils

  /** `SortOrder`, sent as `"ASC"` or `"DESC"`. */
  datatype SortOrder = Ascending | Descending

  function OrderString(order: SortOrder): string {
    match order
    case Ascending => "ASC"
    case Descending => "DESC"
  }

  const DefaultLimit: int := 10
  const DefaultOffset: int := 0

  /** The filter criteria of `getMatches`; every field may be `undefined`. */
  datatype MatchFilter = MatchFilter(
    competitionId: Option<Scalar>,
    groupId: Option<Scalar>,
    seasonYear: Option<Scalar>,
    opponentTeamIds: Option<Mixed>,
    matchId: Option<Mixed>)

  /** At least one of the five criteria is truthy. */
  predicate HasCriterion(f: MatchFilter) {
    Truthy(f.competitionId) || Truthy(f.groupId) || TruthyMixed(f.opponentTeamIds)
    || TruthyMixed(f.matchId) || Truthy(f.seasonYear)
  }

  /** A competition id is given without a season year. */
  predicate CompetitionWithoutSeason(f: MatchFilter) {
    Truthy(f.competitionId) && !Truthy(f.seasonYear)
  }

  /** The keys a match query may ever carry. */
  const MatchKeys: set<string> :=
    {"competitionId", "matchId", "opponentTeamIds", "groupId", "seasonYear", "limit", "offset", "order"}

  /** The value a match query gives `key`, or `undefined` when the key is left out. */
  function MatchesValue(f: MatchFilter, order: SortOrder, limit: int, offset: int, key: string): Option<string> {
    if key == "competitionId" then ScalarParam(f.competitionId)
    else if key == "matchId" then MixedParam(f.matchId)
    else if key == "opponentTeamIds" then MixedParam(f.opponentTeamIds)
    else if key == "groupId" then ScalarParam(f.groupId)
    else if key == "seasonYear" then ScalarParam(f.seasonYear)
    else if key == "limit" then (if TruthyMixed(f.matchId) then None else Some(IntToString(limit)))
    else if key == "offset" then (if TruthyMixed(f.matchId) then None else Some(IntToString(offset)))
    else if key == "order" then Some(OrderString(order))
    else None
  }

  /** The query parameters of a match query, described key by key: each filter
      key is present iff its field is truthy (ids comma-joined by the codec, the
      rest by `toString`), `limit`/`offset` are present iff no match id is given
      and then hold the decimal window, `order` is always present, and no other
      key appears. */
  predicate IsMatchesParameters(p: map<string, string>, f: MatchFilter, order: SortOrder, limit: int, offset: int) {
    && (p.Keys <= MatchKeys)
    && ("competitionId" in p <==> Truthy(f.competitionId))
    && ("competitionId" in p ==> p["competitionId"] == ToString(f.competitionId.value))
    && ("groupId" in p <==> Truthy(f.groupId))
    && ("groupId" in p ==> p["groupId"] == ToString(f.groupId.value))
    && ("seasonYear" in p <==> Truthy(f.seasonYear))
    && ("seasonYear" in p ==> p["seasonYear"] == ToString(f.seasonYear.value))
    && ("matchId" in p <==> TruthyMixed(f.matchId))
    && ("matchId" in p ==> p["matchId"] == ParseOptionalMixedArray(f.matchId).value)
    && ("opponentTeamIds" in p <==> TruthyMixed(f.opponentTeamIds))
    && ("opponentTeamIds" in p ==> p["opponentTeamIds"] == ParseOptionalMixedArray(f.opponentTeamIds).value)
    && ("limit" in p <==> !TruthyMixed(f.matchId))
    && ("offset" in p <==> !TruthyMixed(f.matchId))
    && ("limit" in p ==> p["limit"] == IntToString(limit) && p["offset"] == IntToString(offset))
    && ("order" in p && p["order"] == OrderString(order))
  }

  /** The parameter record is determined by its description. */
  lemma MatchesParametersUnique(p: map<string, string>, q: map<string, string>, f: MatchFilter, order: SortOrder, limit: int, offset: int)
    requires IsMatchesParameters(p, f, order, limit, offset) && IsMatchesParameters(q, f, order, limit, offset)
    ensures p == q
  {
    SameRecord(p, q, MatchKeys);
  }

  /** A reference definition of the record: the known keys that have a value. */
  function MatchesParameters(f: MatchFilter, order: SortOrder, limit: int, offset: int): (p: map<string, string>)
    ensures IsMatchesParameters(p, f, order, limit, offset)
  {
    map key | key in MatchKeys && MatchesValue(f, order, limit, offset, key).Some?
      :: MatchesValue(f, order, limit, offset, key).value
  }

  /** What `getMatches` requests. It is rejected, before any request, when the
      filter object is missing or has no truthy criterion, then when a competition
      id comes without a season year, and only then when the pagination window is
      invalid; otherwise it asks the match endpoint with the parameter record
      that IsMatchesParameters describes. */
  function MatchesRequest(filter: Option<MatchFilter>, order: Option<SortOrder>, limit: Option<int>, offset: Option<int>): (r: Result<Request>)
    ensures filter.None? || !HasCriterion(filter.value) ==> r == Err(MissingFilter)
    ensures filter.Some? && HasCriterion(filter.value) && CompetitionWithoutSeason(filter.value) ==>
      r == Err(SeasonYearRequired)
    ensures r.Ok? <==>
      filter.Some? && HasCriterion(filter.value) && !CompetitionWithoutSeason(filter.value)
      && limit.GetOr(DefaultLimit) >= 1 && offset.GetOr(DefaultOffset) >= 0
    ensures r.Err? && filter.Some? && HasCriterion(filter.value) && !CompetitionWithoutSeason(filter.value) ==>
      ValidateLimitOffset(limit.GetOr(DefaultLimit), offset.GetOr(DefaultOffset)) == Fail(r.error)
    ensures r.Ok? ==> (r.value.endpoint == ApiMatches && r.value.path == ""
      && IsMatchesParameters(r.value.params, filter.value, order.GetOr(Ascending), limit.GetOr(DefaultLimit), offset.GetOr(DefaultOffset)))
  {
    if filter.None? || !HasCriterion(filter.value) then Err(MissingFilter)
    else if CompetitionWithoutSeason(filter.value) then Err(SeasonYearRequired)
    else
      var lim, off := limit.GetOr(DefaultLimit), offset.GetOr(DefaultOffset);
      match ValidateLimitOffset(lim, off)
      case Fail(e) => Err(e)
      case Pass => Ok(Request(ApiMatches, "", MatchesParameters(filter.value, order.GetOr(Ascending), lim, off)))
  }

  /** The parameter record of `getMatches`, filled one conditional key at a time. */
  method AssembleMatchesParameters(f: MatchFilter, order: SortOrder, limit: int, offset: int)
    returns (parameters: map<string, string>)
    ensures IsMatchesParameters(parameters, f, order, limit, offset)
  {
    parameters := map[];
    if Truthy(f.competitionId) {
      parameters := parameters["competitionId" := ToString(f.competitionId.value)];
    }
    if TruthyMixed(f.matchId) {
      parameters := parameters["matchId" := ParseOptionalMixedArray(f.matchId).value];
    }
    if TruthyMixed(f.opponentTeamIds) {
      parameters := parameters["opponentTeamIds" := ParseOptionalMixedArray(f.opponentTeamIds).value];
    }
    if Truthy(f.groupId) {
      parameters := parameters["groupId" := ToString(f.groupId.value)];
    }
    if Truthy(f.seasonYear) {
      parameters := parameters["seasonYear" := ToString(f.seasonYear.value)];
    }
    if !TruthyMixed(f.matchId) {
      parameters := parameters["limit" := IntToString(limit)];
      parameters := parameters["offset" := IntToString(offset)];
    }
    parameters := parameters["order" := OrderString(order)];
  }

  /** `getMatches`: the guards, then the parameter record filled key by key. */
  method GetMatches(filter: Option<MatchFilter>, order: Option<SortOrder>, limit: Option<int>, offset: Option<int>)
    returns (r: Result<Request>)
    ensures r == MatchesRequest(filter, order, limit, offset)
  {
    if filter.None? {
      return Err(MissingFilter);
    }
    var f := filter.value;
    if !Truthy(f.competitionId) && !Truthy(f.groupId) && !TruthyMixed(f.opponentTeamIds)
      && !TruthyMixed(f.matchId) && !Truthy(f.seasonYear)
    {
      return Err(MissingFilter);
    }
    if Truthy(f.competitionId) && !Truthy(f.seasonYear) {
      return Err(SeasonYearRequired);
    }
    var lim := limit.GetOr(DefaultLimit);
    var off := offset.GetOr(DefaultOffset);
    var valid := ValidateLimitOffset(lim, off);
    if valid.Fail? {
      return Err(valid.error);
    }
    var parameters := AssembleMatchesParameters(f, order.GetOr(Ascending), lim, off);
    MatchesParametersUnique(parameters, MatchesParameters(f, order.GetOr(Ascending), lim, off), f, order.GetOr(Ascending), lim, off);
    return Ok(Request(ApiMatches, "", parameters));
  }

  // ---------------------------------------------------------------------------
  // getMatch

  /** The request `getMatch` sends: a falsy id is rejected; otherwise it is the
      match query for that one id, ascending, limit 1, offset 0 -- and because the
      id is truthy, the query drops limit and offset, keeping only the id and
      the order. */
  function MatchRequest(matchId: Scalar): (r: Result<Request>)
    ensures r.Err? <==> !ScalarTruthy(matchId)
    ensures r.Err? ==> r.error == MissingId
    ensures r.Ok? ==> r.value == Request(ApiMatches, "", map["matchId" := ToString(matchId), "order" := "ASC"])
  {
    if !ScalarTruthy(matchId) then Err(MissingId)
    else
      var r := MatchesRequest(Some(MatchFilter(None, None, None, None, Some(Single(matchId)))), Some(Ascending), Some(1), Some(0));
      assert r.Ok?;
      assert r.value.params.Keys == {"matchId", "order"};
      r
  }

  /** The post-response check of `getMatch`: no result is "not found", otherwise
      the first result. */
  function FirstMatch<T>(results: seq<T>): (r: Result<T>)
    ensures r.Err? <==> |results| == 0
    ensures r.Err? ==> r.error == NotFound
    ensures r.Ok? ==> r.value == results[0]
  {
    if |results| == 0 then Err(NotFound) else Ok(results[0])
  }

  /** `getMatch` against a transport: a falsy id never reaches the transport;
      otherwise the lookup request is sent once, and the call succeeds exactly when
      the response is ok, carries no error envelope and holds at least one match,
      giving the first. */
  function GetMatch<T>(matchId: Scalar, transport: Request -> Response<seq<T>>): (r: Result<T>)
    ensures !ScalarTruthy(matchId) ==> r == Err(MissingId)
    ensures ScalarTruthy(matchId) ==>
      var response := transport(Request(ApiMatches, "", map["matchId" := ToString(matchId), "order" := "ASC"]));
      && (r.Ok? <==> response.ok && response.body.Payload? && |response.body.value| > 0)
      && (r.Ok? ==> r.value == response.body.value[0])
      && (response.ok && response.body.Payload? && |response.body.value| == 0 ==> r == Err(NotFound))
      && (!response.ok ==> r == Err(HttpError(response.status)))
      && (response.ok && response.body.ErrorEnvelope? ==>
            r == Err(ApiFailure(response.body.error.title, response.body.error.message)))
  {
    var results :- Send(MatchRequest(matchId), transport);
    FirstMatch(results)
  }

  // ---------------------------------------------------------------------------
  // Id-scoped sub-resources

  /** `${apiMatchStats}/${id}` and the like: the id appended after a slash. */
  function IdPath(matchId: Scalar): string {
    "/" + ToString(matchId)
  }

  /** `getMatchStats`: a falsy id is rejected; otherwise the stats endpoint is
      asked at `/<id>` with no parameters. */
  function MatchStatsRequest(matchId: Scalar): (r: Result<Request>)
    ensures r.Err? <==> !ScalarTruthy(matchId)
    ensures r.Err? ==> r.error == MissingId
    ensures r.Ok? ==> r.value.endpoint == ApiMatchStats && r.value.params == map[]
    ensures r.Ok? ==> |r.value.path| >= 1 && r.value.path[0] == '/' && r.value.path[1..] == ToString(matchId)
  {
    if !ScalarTruthy(matchId) then Err(MissingId)
    else Ok(Request(ApiMatchStats, IdPath(matchId), map[]))
  }

  /** `getLineups`: a falsy id is rejected; otherwise the match endpoint is asked
      at `/<id>/lineups` with no parameters. */
  function LineupsRequest(matchId: Scalar): (r: Result<Request>)
    ensures r.Err? <==> !ScalarTruthy(matchId)
    ensures r.Err? ==> r.error == MissingId
    ensures r.Ok? ==> r.value.endpoint == ApiMatches && r.value.params == map[]
    ensures r.Ok? ==> r.value.path == IdPath(matchId) + "/lineups"
  {
    if !ScalarTruthy(matchId) then Err(MissingId)
    else Ok(Request(ApiMatches, IdPath(matchId) + "/lineups", map[]))
  }

  /** `getMatchEvents`: a falsy id is rejected; otherwise the match endpoint is
      asked at `/<id>/events` with exactly the fixed filter `LINEUP`, the order
      and the decimal limit and offset. Limit and offset are not validated. */
  function MatchEventsRequest(matchId: Scalar, order: Option<SortOrder>, limit: Option<int>, offset: Option<int>): (r: Result<Request>)
    ensures r.Err? <==> !ScalarTruthy(matchId)
    ensures r.Err? ==> r.error == MissingId
    ensures r.Ok? ==> r.value.endpoint == ApiMatches && r.value.path == IdPath(matchId) + "/events"
    ensures r.Ok? ==> r.value.params.Keys == {"filter", "order", "limit", "offset"}
    ensures r.Ok? ==> r.value.params["filter"] == "LINEUP" && r.value.params["order"] == OrderString(order.GetOr(Ascending))
    ensures r.Ok? ==> (r.value.params["limit"] == IntToString(limit.GetOr(DefaultLimit))
      && r.value.params["offset"] == IntToString(offset.GetOr(DefaultOffset)))
    ensures r.Ok? ==> (ParseInt(r.value.params["limit"]) == limit.GetOr(DefaultLimit)
      && ParseInt(r.value.params["offset"]) == offset.GetOr(DefaultOffset))
  {
    if !ScalarTruthy(matchId) then Err(MissingId)
    else
      var lim, off := limit.GetOr(DefaultLimit), offset.GetOr(DefaultOffset);
      IntToStringRoundTrip(lim);
      IntToStringRoundTrip(off);
      Ok(Request(ApiMatches, IdPath(matchId) + "/events", map[
        "filter" := "LINEUP",
        "order" := OrderString(order.GetOr(Ascending)),
        "limit" := IntToString(lim),
        "offset" := IntToString(off)]))
  }

  /** A sub-resource path determines the id it was built from: distinct ids
      address distinct paths. */
  lemma SubResourcePathDeterminesId(a: Scalar, b: Scalar, suffix: string)
    requires IdPath(a) + suffix == IdPath(b) + suffix
    ensures ToString(a) == ToString(b)
  {
    var s := IdPath(a) + suffix;
    assert |IdPath(a)| == |IdPath(b)|;
    assert IdPath(a) == s[..|IdPath(a)|] == IdPath(b);
    assert ToString(a) == IdPath(a)[1..] && ToString(b) == IdPath(b)[1..];
  }

  // ---------------------------------------------------------------------------
  // Consequences

  /** Filtering by a match id drops pagination even when limit and offset are
      given, and keeps nothing from the window. */
  lemma MatchIdDropsPagination(f: MatchFilter, order: Option<SortOrder>, limit: int, offset: int)
    requires TruthyMixed(f.matchId) && !CompetitionWithoutSeason(f)
    requires limit >= 1 && offset >= 0
    ensures MatchesRequest(Some(f), order, Some(limit), Some(offset)).Ok?
    ensures var p := MatchesRequest(Some(f), order, Some(limit), Some(offset)).value.params;
      "limit" !in p && "offset" !in p
  {
  }

  /** An empty array of match ids still counts as a criterion: it sends an empty
      `matchId` and switches pagination off. */
  lemma EmptyMatchIdList()
    ensures var r := MatchesRequest(Some(MatchFilter(None, None, None, None, Some(List([])))), None, None, None);
      r.Ok? && r.value.params == map["matchId" := "", "order" := "ASC"]
  {
    var r := MatchesRequest(Some(MatchFilter(None, None, None, None, Some(List([])))), None, None, None);
    assert r.value.params.Keys == {"matchId", "order"};
  }

  /** An error envelope at HTTP 200 fails the lookup with that API error. */
  lemma MatchLookupEnvelope<T>(matchId: Scalar, e: ApiError)
    requires ScalarTruthy(matchId)
    ensures GetMatch<T>(matchId, _ => Response(true, 200, ErrorEnvelope(e))) == Err(ApiFailure(e.title, e.message))
  {
  }

  /** The competition-needs-season rule is checked before the pagination window. */
  lemma SeasonCheckedBeforeWindow()
    ensures MatchesRequest(Some(MatchFilter(Some(Str("5")), None, None, None, None)), None, Some(0), Some(-1))
      == Err(SeasonYearRequired)
    ensures MatchesRequest(Some(MatchFilter(Some(Str("5")), None, Some(Str("2024")), None, None)), None, None, None).Ok?
  {
  }
}
