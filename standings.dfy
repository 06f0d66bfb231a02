/** Standings queries (src/helpers/standings.ts): filtered, never paginated. */
module Standings {
  import opened JsValues
  import opened Api
  import opened Utils

  /** The filter criteria of `getStandings`; every field may be `undefined`. */
  datatype StandingsFilter = StandingsFilter(
    competitionId: Option<Scalar>,
    roundId: Option<Scalar>,
    groupIds: Option<Mixed>,
    phase: Option<string>,
    seasonYear: Option<Scalar>)

  /** At least one of the five criteria is truthy. */
  predicate HasCriterion(f: StandingsFilter) {
    Truthy(f.competitionId) || Truthy(f.roundId) || TruthyMixed(f.groupIds)
    || TruthyString(f.phase) || Truthy(f.seasonYear)
  }

  /** A competition id is given without a season year. */
  predicate CompetitionWithoutSeason(f: StandingsFilter) {
    Truthy(f.competitionId) && !Truthy(f.seasonYear)
  }

  /** The keys a standings query may ever carry: the five filter names. */
  const StandingsKeys: set<string> := {"competitionId", "roundId", "groupIds", "phase", "seasonYear"}

  /** The round id goes through the codec, as a single value. */
  function RoundIdParam(roundId: Option<Scalar>): Option<string> {
    if Truthy(roundId) then ParseOptionalMixedArray(Some(Single(roundId.value))) else None
  }

  /** The phase is already a string; its `toString` is itself. */
  function PhaseParam(phase: Option<string>): Option<string> {
    if TruthyString(phase) then phase else None
  }

  /** The value a standings query gives `key`, or `undefined` when the key is left out. */
  function StandingsValue(f: StandingsFilter, key: string): Option<string> {
    if key == "competitionId" then ScalarParam(f.competitionId)
    else if key == "roundId" then RoundIdParam(f.roundId)
    else if key == "groupIds" then MixedParam(f.groupIds)
    else if key == "phase" then PhaseParam(f.phase)
    else if key == "seasonYear" then ScalarParam(f.seasonYear)
    else None
  }

  /** The query parameters of a standings query, key by key: each filter key is
      present iff its field is truthy, with the group ids comma-joined by the
      codec, the round id passed through the codec (which for one id is its
      `toString`), and the rest by `toString`. There is never a `limit` or an
      `offset`. */
  predicate IsStandingsParameters(p: map<string, string>, f: StandingsFilter) {
    && (p.Keys <= StandingsKeys)
    && ("competitionId" in p <==> Truthy(f.competitionId))
    && ("competitionId" in p ==> p["competitionId"] == ToString(f.competitionId.value))
    && ("roundId" in p <==> Truthy(f.roundId))
    && ("roundId" in p ==> p["roundId"] == ToString(f.roundId.value))
    && ("groupIds" in p <==> TruthyMixed(f.groupIds))
    && ("groupIds" in p ==> p["groupIds"] == ParseOptionalMixedArray(f.groupIds).value)
    && ("phase" in p <==> TruthyString(f.phase))
    && ("phase" in p ==> p["phase"] == f.phase.value)
    && ("seasonYear" in p <==> Truthy(f.seasonYear))
    && ("seasonYear" in p ==> p["seasonYear"] == ToString(f.seasonYear.value))
  }

  /** The parameter record is determined by its description. */
  lemma StandingsParametersUnique(p: map<string, string>, q: map<string, string>, f: StandingsFilter)
    requires IsStandingsParameters(p, f) && IsStandingsParameters(q, f)
    ensures p == q
  {
    SameRecord(p, q, StandingsKeys);
  }

  /** A reference definition of the record: the filter keys that have a value. */
  function StandingsParameters(f: StandingsFilter): (p: map<string, string>)
    ensures IsStandingsParameters(p, f)
  {
    map key | key in StandingsKeys && StandingsValue(f, key).Some? :: StandingsValue(f, key).value
  }

  /** What `getStandings` requests. It is rejected, before any request, when the
      filter object is missing or has no truthy criterion, then when a
      competition id comes without a season year; there is no pagination to
      validate. Otherwise it asks the standings endpoint with the record
      IsStandingsParameters describes. */
  function StandingsRequest(filter: Option<StandingsFilter>): (r: Result<Request>)
    ensures filter.None? || !HasCriterion(filter.value) ==> r == Err(MissingFilter)
    ensures filter.Some? && HasCriterion(filter.value) && CompetitionWithoutSeason(filter.value) ==>
      r == Err(SeasonYearRequired)
    ensures r.Ok? <==> filter.Some? && HasCriterion(filter.value) && !CompetitionWithoutSeason(filter.value)
    ensures r.Ok? ==> (r.value.endpoint == ApiStandings && r.value.path == ""
      && IsStandingsParameters(r.value.params, filter.value))
  {
    if filter.None? || !HasCriterion(filter.value) then Err(MissingFilter)
    else if CompetitionWithoutSeason(filter.value) then Err(SeasonYearRequired)
    else Ok(Request(ApiStandings, "", StandingsParameters(filter.value)))
  }

  /** The parameter record of `getStandings`, filled one conditional key at a time. */
  method AssembleStandingsParameters(f: StandingsFilter) returns (parameters: map<string, string>)
    ensures IsStandingsParameters(parameters, f)
  {
    parameters := map[];
    if Truthy(f.competitionId) {
      parameters := parameters["competitionId" := ToString(f.competitionId.value)];
    }
    if Truthy(f.roundId) {
      parameters := parameters["roundId" := ParseOptionalMixedArray(Some(Single(f.roundId.value))).value];
    }
    if TruthyMixed(f.groupIds) {
      parameters := parameters["groupIds" := ParseOptionalMixedArray(f.groupIds).value];
    }
    if TruthyString(f.phase) {
      parameters := parameters["phase" := f.phase.value];
    }
    if Truthy(f.seasonYear) {
      parameters := parameters["seasonYear" := ToString(f.seasonYear.value)];
    }
  }

  /** `getStandings`: the guards, then the parameter record filled key by key. */
  method GetStandings(filter: Option<StandingsFilter>) returns (r: Result<Request>)
    ensures r == StandingsRequest(filter)
  {
    if filter.None? {
      return Err(MissingFilter);
    }
    var f := filter.value;
    if !Truthy(f.competitionId) && !Truthy(f.roundId) && !TruthyMixed(f.groupIds)
      && !TruthyString(f.phase) && !Truthy(f.seasonYear)
    {
      return Err(MissingFilter);
    }
    if Truthy(f.competitionId) && !Truthy(f.seasonYear) {
      return Err(SeasonYearRequired);
    }
    var parameters := AssembleStandingsParameters(f);
    StandingsParametersUnique(parameters, StandingsParameters(f), f);
    return Ok(Request(ApiStandings, "", parameters));
  }

  /** A standings request never carries a pagination window. */
  lemma StandingsNeverPaginated(filter: Option<StandingsFilter>)
    requires StandingsRequest(filter).Ok?
    ensures "limit" !in StandingsRequest(filter).value.params
    ensures "offset" !in StandingsRequest(filter).value.params
  {
  }

  /** `{competitionId: "5"}` is rejected; with `seasonYear: "2024"` it is sent. */
  lemma CompetitionNeedsSeason()
    ensures StandingsRequest(Some(StandingsFilter(Some(Str("5")), None, None, None, None))) == Err(SeasonYearRequired)
    ensures StandingsRequest(Some(StandingsFilter(Some(Str("5")), None, None, None, Some(Str("2024"))))).Ok?
  {
  }
}
