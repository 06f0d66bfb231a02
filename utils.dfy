/** The parameter codec, the pagination check and the response classification
    shared by every query function (src/utils.ts). */
module Utils {
  import opened JsValues
  import opened Api

  // ---------------------------------------------------------------------------
  // Comma join and its partner, comma split

  /** `Array.prototype.join(',')` on strings. */
  function Join(parts: seq<string>): string
    decreases |parts|
  {
    if |parts| == 0 then ""
    else if |parts| == 1 then parts[0]
    else parts[0] + "," + Join(parts[1..])
  }

  /** `String.prototype.split(',')`: the pieces between commas, always at least one. */
  function Split(s: string): (parts: seq<string>)
    ensures |parts| >= 1
    decreases |s|
  {
    if s == [] then [""]
    else
      var rest := Split(s[1..]);
      if s[0] == ',' then [""] + rest else [[s[0]] + rest[0]] + rest[1..]
  }

  /** A string without commas splits into itself. */
  lemma {:induction false} SplitNoComma(a: string)
    requires ',' !in a
    ensures Split(a) == [a]
    decreases |a|
  {
    if a != [] {
      assert ',' !in a[1..] by {
        forall i | 0 <= i < |a[1..]| ensures a[1..][i] != ',' {
          assert a[1..][i] == a[i + 1];
        }
      }
      SplitNoComma(a[1..]);
      assert [a[0]] + a[1..] == a;
    }
  }

  /** Splitting at the first comma. */
  lemma {:induction false} SplitAtComma(a: string, b: string)
    requires ',' !in a
    ensures Split(a + "," + b) == [a] + Split(b)
    decreases |a|
  {
    var s := a + "," + b;
    if a == [] {
      assert s[0] == ',' && s[1..] == b;
    } else {
      assert ',' !in a[1..] by {
        forall i | 0 <= i < |a[1..]| ensures a[1..][i] != ',' {
          assert a[1..][i] == a[i + 1];
        }
      }
      assert s[0] == a[0] && s[1..] == a[1..] + "," + b;
      SplitAtComma(a[1..], b);
      assert [a[0]] + a[1..] == a;
    }
  }

  /** Splitting a join of comma-free parts gives back the parts, in order. */
  lemma {:induction false} SplitJoin(parts: seq<string>)
    requires |parts| >= 1
    requires forall i :: 0 <= i < |parts| ==> ',' !in parts[i]
    ensures Split(Join(parts)) == parts
    decreases |parts|
  {
    if |parts| == 1 {
      SplitNoComma(parts[0]);
    } else {
      SplitJoin(parts[1..]);
      SplitAtComma(parts[0], Join(parts[1..]));
      assert [parts[0]] + parts[1..] == parts;
    }
  }

  /** A join is empty only for no parts or for one empty part. */
  lemma JoinEmpty(parts: seq<string>)
    ensures Join(parts) == "" <==> |parts| == 0 || (|parts| == 1 && parts[0] == "")
  {
  }

  // ---------------------------------------------------------------------------
  // parseOptionalMixedArray

  /** The `toString` forms of the elements of an array, in order. */
  function Strings(items: seq<Scalar>): (r: seq<string>)
    ensures |r| == |items|
    ensures forall i :: 0 <= i < |items| ==> r[i] == ToString(items[i])
  {
    seq(|items|, i requires 0 <= i < |items| => ToString(items[i]))
  }

  /** `parseOptionalMixedArray`: `undefined` stays `undefined`; an array is
      comma-joined in its given order; a scalar becomes its `toString`. */
  function ParseOptionalMixedArray(mixed: Option<Mixed>): (r: Option<string>)
    ensures r.None? <==> mixed.None?
  {
    match mixed
    case None => None
    case Some(List(items)) => Some(Join(Strings(items)))
    case Some(Single(x)) => Some(ToString(x))
  }

  /** For a non-empty array whose element strings hold no comma, splitting the
      codec's output on commas gives back exactly the element strings: no
      sorting, no de-duplication, no element lost. */
  lemma {:induction false} ParseListRoundTrip(items: seq<Scalar>)
    requires |items| >= 1
    requires forall i :: 0 <= i < |items| ==> ',' !in ToString(items[i])
    ensures ParseOptionalMixedArray(Some(List(items))).Some?
    ensures Split(ParseOptionalMixedArray(Some(List(items))).value) == Strings(items)
  {
    SplitJoin(Strings(items));
  }

  /** An array of integers round-trips: each piece reads back as its number. */
  lemma {:induction false} ParseNumberListRoundTrip(ns: seq<int>)
    requires |ns| >= 1
    ensures var items := seq(|ns|, i requires 0 <= i < |ns| => Num(ns[i]));
      var pieces := Split(ParseOptionalMixedArray(Some(List(items))).value);
      |pieces| == |ns| && forall i :: 0 <= i < |ns| ==> ParseInt(pieces[i]) == ns[i]
  {
    var items := seq(|ns|, i requires 0 <= i < |ns| => Num(ns[i]));
    forall i | 0 <= i < |items| ensures ',' !in ToString(items[i]) {
      IntToStringNoComma(ns[i]);
    }
    ParseListRoundTrip(items);
    forall i | 0 <= i < |ns| ensures ParseInt(Strings(items)[i]) == ns[i] {
      IntToStringRoundTrip(ns[i]);
    }
  }

  /** The codec yields `""` exactly for `""`, `[]` and `[""]`; `0` becomes `"0"`. */
  lemma {:induction false} ParseEmptyResult(m: Mixed)
    ensures ParseOptionalMixedArray(Some(m)) == Some("")
      <==> m == Single(Str("")) || m == List([]) || m == List([Str("")])
  {
    match m
    case Single(x) =>
      ToStringEmpty(x);
    case List(items) =>
      JoinEmpty(Strings(items));
      if |items| == 1 {
        ToStringEmpty(items[0]);
        assert items == [items[0]];
      }
  }

  /** A bare scalar is encoded as its `toString`: a string stays itself, and an
      integer becomes a comma-free decimal that reads back as the integer. */
  lemma ScalarEncoding(x: Scalar)
    ensures ParseOptionalMixedArray(Some(Single(x))).Some?
    ensures x.Str? ==> ParseOptionalMixedArray(Some(Single(x))).value == x.s
    ensures x.Num? ==> var e := ParseOptionalMixedArray(Some(Single(x))).value;
      e != "" && ',' !in e && ParseInt(e) == x.n
  {
    if x.Num? {
      IntToStringRoundTrip(x.n);
      IntToStringNoComma(x.n);
    }
  }

  /** A one-element array and the bare scalar encode the same. */
  lemma SingletonListIsScalar(x: Scalar)
    ensures ParseOptionalMixedArray(Some(List([x]))) == ParseOptionalMixedArray(Some(Single(x)))
  {
  }

  // ---------------------------------------------------------------------------
  // validateLimitOffset

  /** `validateLimitOffset`: the limit must be at least 1 and the offset at least 0;
      the limit is checked first. No upper bound. */
  function ValidateLimitOffset(limit: int, offset: int): (r: Outcome)
    ensures r.Pass? <==> limit >= 1 && offset >= 0
    ensures limit < 1 ==> r == Fail(LimitTooSmall)
    ensures limit >= 1 && offset < 0 ==> r == Fail(NegativeOffset)
  {
    if limit < 1 then Fail(LimitTooSmall)
    else if offset < 0 then Fail(NegativeOffset)
    else Pass
  }

  // ---------------------------------------------------------------------------
  // Request parameters

  /** The value a scalar filter field contributes: its `toString`, when truthy. */
  function ScalarParam(field: Option<Scalar>): (r: Option<string>)
    ensures r.Some? <==> Truthy(field)
    ensures r.Some? ==> r.value == ToString(field.value)
  {
    if Truthy(field) then Some(ToString(field.value)) else None
  }

  /** The value a mixed filter field contributes: the codec's output, when truthy. */
  function MixedParam(field: Option<Mixed>): (r: Option<string>)
    ensures r.Some? <==> TruthyMixed(field)
  {
    if TruthyMixed(field) then ParseOptionalMixedArray(field) else None
  }

  /** Two parameter records over the same known keys that agree key by key are equal. */
  lemma SameRecord(a: map<string, string>, b: map<string, string>, keys: set<string>)
    requires a.Keys <= keys && b.Keys <= keys
    requires forall k :: k in keys ==> (k in a <==> k in b)
    requires forall k :: k in keys && k in a ==> a[k] == b[k]
    ensures a == b
  {
  }

  // ---------------------------------------------------------------------------
  // performApiRequest

  /** The outcome classification of `performApiRequest`, in its precedence order:
      a non-ok response is a transport failure with its status, and its body is
      not looked at; an ok response whose body has an `error` field is an API
      failure with that error's title and message; anything else is the body. */
  function Classify<T>(response: Response<T>): (r: Result<T>)
    ensures !response.ok ==> r == Err(HttpError(response.status))
    ensures response.ok && response.body.ErrorEnvelope? ==>
      r == Err(ApiFailure(response.body.error.title, response.body.error.message))
    ensures r.Ok? <==> response.ok && response.body.Payload?
    ensures r.Ok? ==> r.value == response.body.value
  {
    if !response.ok then Err(HttpError(response.status))
    else match response.body
      case ErrorEnvelope(e) => Err(ApiFailure(e.title, e.message))
      case Payload(v) => Ok(v)
  }

  /** The envelope is never inspected when the response is not ok. */
  lemma ClassifyIgnoresBodyWhenNotOk<T>(status: int, b1: Body<T>, b2: Body<T>)
    ensures Classify(Response(false, status, b1)) == Classify(Response(false, status, b2))
  {
  }

  /** The API failure carries the envelope's title and message; its HTTP status
      (and the envelope's own status) is not part of it. */
  lemma ApiFailureDropsStatus<T>(s1: int, s2: int, e1: ApiError, e2: ApiError)
    requires e1.title == e2.title && e1.message == e2.message
    ensures Classify<T>(Response(true, s1, ErrorEnvelope(e1))) == Classify<T>(Response(true, s2, ErrorEnvelope(e2)))
  {
  }

  /** `performApiRequest(url, parameters)` behind a query function: a rejected
      request never reaches the transport and keeps its error; a built request
      is exchanged once and its response decides the outcome -- a non-ok
      response is a transport failure with its status, an ok response with an
      error envelope is an API failure with the envelope's title and message,
      and an ok payload is returned unchanged. */
  function Send<T>(built: Result<Request>, transport: Request -> Response<T>): (r: Result<T>)
    ensures built.Err? ==> r == Err(built.error)
    ensures built.Ok? ==> var response := transport(built.value);
      && (r.Ok? <==> response.ok && response.body.Payload?)
      && (r.Ok? ==> r.value == response.body.value)
      && (!response.ok ==> r == Err(HttpError(response.status)))
      && (response.ok && response.body.ErrorEnvelope? ==>
            r == Err(ApiFailure(response.body.error.title, response.body.error.message)))
  {
    match built
    case Err(e) => Err(e)
    case Ok(request) => Classify(transport(request))
  }

  /** A rejected request fails the same way whatever the transport would answer. */
  lemma RejectionSkipsTransport<T>(built: Result<Request>, t1: Request -> Response<T>, t2: Request -> Response<T>)
    requires built.Err?
    ensures Send(built, t1) == Send(built, t2) == Err(built.error)
  {
  }

  /** A non-ok response makes a built request fail with its HTTP status,
      whatever the body holds and whatever the transport answers elsewhere. */
  lemma HttpFailureCarriesStatus<T>(built: Result<Request>, transport: Request -> Response<T>)
    requires built.Ok? && !transport(built.value).ok
    ensures Send(built, transport) == Err(HttpError(transport(built.value).status))
  {
  }

  /** An error envelope in an ok response makes a built request fail with that
      API error, whatever the status. */
  lemma EnvelopeAtOkFails<T>(built: Result<Request>, transport: Request -> Response<T>)
    requires built.Ok? && transport(built.value).ok && transport(built.value).body.ErrorEnvelope?
    ensures var e := transport(built.value).body.error;
      Send(built, transport) == Err(ApiFailure(e.title, e.message))
  {
  }
}
