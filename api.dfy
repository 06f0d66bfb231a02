/** The values that flow between the query functions, the request executor and
    the caller: requests, abstract HTTP responses, and the failure conditions. */
module Api {

  /** Why a call fails. The source throws an `Error` whose message names one
      of these conditions; the model keeps the condition and not the wording. */
  datatype Error =
    | MissingFilter           // "At least one filter criteria must be provided"
    | SeasonYearRequired      // competition id given without a season year
    | LimitTooSmall           // limit < 1
    | NegativeOffset          // offset < 0
    | MissingId               // falsy match or team id
    | NotFound                // single-entity lookup did not resolve to one result
    | HttpError(status: int)  // non-ok HTTP response, carrying its status
    | ApiFailure(title: string, message: string)  // error envelope: title and message only

  /** A call's outcome: a value, or the condition it was rejected with. */
  datatype Result<+T> = Ok(value: T) | Err(error: Error) {
    predicate IsFailure() {
      Err?
    }

    function PropagateFailure<U>(): Result<U>
      requires Err?
    {
      Err(error)
    }

    function Extract(): T
      requires Ok?
    {
      value
    }
  }

  /** A check that returns nothing and may fail. */
  datatype Outcome = Pass | Fail(error: Error)

  /** The `error` object of an error envelope. */
  datatype ApiError = ApiError(status: int, title: string, message: string)

  /** A decoded JSON body: either it has an `error` field, or it is the payload. */
  datatype Body<+T> = ErrorEnvelope(error: ApiError) | Payload(value: T)

  /** What the transport hands back: `response.ok`, `response.status` and the body. */
  datatype Response<+T> = Response(ok: bool, status: int, body: Body<T>)

  /** The endpoint URL constants. Their string values are configuration outside
      the model; as constructors of one datatype they are distinct by construction. */
  datatype Endpoint =
    | ApiMatches
    | ApiMatchStats
    | ApiTeams
    | ApiPlayers
    | ApiStandings
    | ApiCompetitions

  /** One GET request: the endpoint constant, the path text appended to it
      (`""` for the list endpoints), and the query parameters. */
  datatype Request = Request(endpoint: Endpoint, path: string, params: map<string, string>)
}
