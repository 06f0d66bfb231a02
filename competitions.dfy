/** Competition queries (src/helpers/competitions.ts): an optional id filter,
    no validation and no pagination. */
module Competitions {
  import opened JsValues
  import opened Api
  import opened Utils

  /** What `getCompetitions` requests: the codec encodes the optional ids, and
      the `competitionIds` key is sent exactly when that encoding is a non-empty
      string (an empty string is falsy); no other key is ever sent. */
  function CompetitionsRequest(filterByIds: Option<Mixed>): (r: Request)
    ensures r.endpoint == ApiCompetitions && r.path == ""
    ensures r.params.Keys <= {"competitionIds"}
    ensures "competitionIds" in r.params <==>
      ParseOptionalMixedArray(filterByIds).Some? && ParseOptionalMixedArray(filterByIds).value != ""
    ensures "competitionIds" in r.params ==> r.params["competitionIds"] == ParseOptionalMixedArray(filterByIds).value
  {
    var competitionIds := ParseOptionalMixedArray(filterByIds);
    var filter := if competitionIds.Some? && competitionIds.value != "" then map["competitionIds" := competitionIds.value] else map[];
    Request(ApiCompetitions, "", filter)
  }

  /** The filter is left out exactly for `undefined`, `""`, `[]` and `[""]`. */
  lemma {:induction false} CompetitionsUnfiltered(filterByIds: Option<Mixed>)
    ensures CompetitionsRequest(filterByIds).params == map[] <==>
      filterByIds.None? || filterByIds == Some(Single(Str(""))) || filterByIds == Some(List([]))
      || filterByIds == Some(List([Str("")]))
  {
    if filterByIds.Some? {
      ParseEmptyResult(filterByIds.value);
      var r := CompetitionsRequest(filterByIds);
      if r.params != map[] {
        assert "competitionIds" in r.params;
      }
    }
  }

  /** The number `0` is falsy, yet its encoding `"0"` is not: it is sent as a filter. */
  lemma ZeroIsSent()
    ensures CompetitionsRequest(Some(Single(Num(0)))).params == map["competitionIds" := "0"]
  {
    assert IntToString(0) == "0";
  }

  /** A list of comma-free ids is sent so that splitting it on commas gives back
      the ids, in the caller's order. */
  lemma {:induction false} CompetitionIdsRoundTrip(ids: seq<Scalar>)
    requires |ids| >= 1
    requires forall i :: 0 <= i < |ids| ==> ',' !in ToString(ids[i])
    requires ids != [Str("")]
    ensures "competitionIds" in CompetitionsRequest(Some(List(ids))).params
    ensures Split(CompetitionsRequest(Some(List(ids))).params["competitionIds"]) == Strings(ids)
  {
    ParseEmptyResult(List(ids));
    ParseListRoundTrip(ids);
  }
}
