/** The client facade of the vaccination-registry REST API (myjab_cowin_client.py):
    the records the API returns, the exceptions a call can raise, the
    classification of an HTTP status into success, client error, server error
    or fall-through, the request helper `__get`, `get_states` and the path
    construction of `get_districts_list`.

    The transport ("Core") is not modelled: what it answers for a request is a
    parameter of the operations that use it (`Call<Response>`), and a response's
    JSON body is abstracted to the few facts the client looks at (`Body`). */
module CowinClient {

  datatype Option<+T> = None | Some(value: T)

  /** A state as the API returns it (`{"state_id": .., "state_name": ..}`). */
  datatype State = State(stateId: int, stateName: string)

  /** A district as the API returns it (`{"district_id": .., "district_name": ..}`). */
  datatype District = District(districtId: int, districtName: string)

  /** The subclasses of `APIException` declared by the client module. */
  datatype ApiKind =
    | Unauthorized
    | TooManyRequests
    | ResourceNotFound
    | AlreadyExists
    | ApiClient
    | ApiServer

  /** What a call in the client can raise. */
  datatype Exception =
    | Api(kind: ApiKind, message: string)
    | AttributeError        // attribute lookup on a value that lacks it (`None.get`)
    | TypeError             // an operator applied to a value of the wrong type
    | KeyError(key: string) // a missing key in a JSON object
    | JsonDecodeError       // the body is not JSON
    | TransportError        // anything the transport itself raises (network failure, ...)

  /** A Python call: it returns a value or raises an exception. */
  datatype Call<+T> = Returned(value: T) | Raised(exc: Exception)

  /** The `meta` member of a JSON object: absent or not an object, or an
      object whose optional `message` the client reads. */
  datatype Meta = NoMetaObject | MetaObject(message: Option<string>)

  /** A response body as the client sees it: not JSON at all, JSON whose
      top-level value is not an object, or an object with its `meta` member
      and its optional `states` list. */
  datatype Body =
    | NotJson
    | NonObject
    | Object(meta: Meta, states: Option<seq<State>>)

  datatype Response = Response(statusCode: int, reason: string, body: Body)

  /** What `__get` hands to the transport: a resource path and a parameter map. */
  datatype Request = Request(resource: string, params: map<string, string>)

  // ---------------------------------------------------------------------------
  // Decimal rendering of a status code (Python's `str` of a non-negative int)

  predicate IsDigit(c: char) { '0' <= c <= '9' }

  function DigitChar(d: nat): (c: char)
    requires d < 10
    ensures IsDigit(c)
  {
    ('0' as int + d) as char
  }

  function DigitValue(c: char): (d: nat)
    requires IsDigit(c)
    ensures d < 10 && DigitChar(d) == c
  {
    c as int - '0' as int
  }

  /** The decimal digits of `n`, most significant first, without leading zeros. */
  function Decimal(n: nat): (r: string)
    ensures 1 <= |r|
    ensures forall i :: 0 <= i < |r| ==> IsDigit(r[i])
    ensures |r| > 1 ==> r[0] != '0'
  {
    if n < 10 then [DigitChar(n)] else Decimal(n / 10) + [DigitChar(n % 10)]
  }

  /** The number a string of decimal digits denotes. */
  function ParseDecimal(s: string): nat
    requires forall i :: 0 <= i < |s| ==> IsDigit(s[i])
  {
    if s == [] then 0 else ParseDecimal(s[..|s| - 1]) * 10 + DigitValue(s[|s| - 1])
  }

  /** Rendering a number in decimal loses nothing: parsing gives it back. */
  lemma {:induction false} DecimalRoundTrip(n: nat)
    ensures ParseDecimal(Decimal(n)) == n
  {
    var s := Decimal(n);
    if n >= 10 {
      assert s[..|s| - 1] == Decimal(n / 10);
      DecimalRoundTrip(n / 10);
    }
  }

  /** A three-digit number renders as three characters, led by its hundreds digit. */
  lemma ThreeDigits(n: nat)
    requires 100 <= n < 1000
    ensures |Decimal(n)| == 3 && Decimal(n)[0] == DigitChar(n / 100)
  {
    assert Decimal(n / 10) == Decimal(n / 100) + [DigitChar(n / 10 % 10)];
    assert n / 10 / 10 == n / 100;
  }

  // ---------------------------------------------------------------------------
  // Status classification (`__handle_response_status`)

  /** The status classes of section 15 of RFC 9110: 15.3 Successful 2xx,
      15.5 Client Error 4xx, 15.6 Server Error 5xx. */
  predicate IsSuccessful(status: int) { 200 <= status < 300 }
  predicate IsClientError(status: int) { 400 <= status < 500 }
  predicate IsServerError(status: int) { 500 <= status < 600 }

  function ClientErrorMessage(status: nat, reason: string): string
  {
    Decimal(status) + " Client Error " + reason
  }

  function ServerErrorMessage(status: nat): string
  {
    Decimal(status) + " Server Error."
  }

  /** The best-effort read of `meta.message` in the client-error branch.
      Only a decode error is caught, so a JSON body without a `meta` object
      makes `.get('meta').get('message')` raise. */
  function ReadMetaMessage(body: Body): (r: Call<Option<string>>)
    ensures r.Raised? <==> body.NonObject? || (body.Object? && body.meta.NoMetaObject?)
    ensures r.Raised? ==> r.exc == AttributeError
    ensures body.NotJson? ==> r == Returned(None)
    ensures body.Object? && body.meta.MetaObject? ==> r == Returned(body.meta.message)
  {
    match body
    case NotJson => Returned(None)
    case NonObject => Raised(AttributeError)
    case Object(meta, _) =>
      match meta
      case NoMetaObject => Raised(AttributeError)
      case MetaObject(message) => Returned(message)
  }

  /** `__handle_response_status` as written: a 2xx status is returned, a 4xx
      raises the generic client error (after the body is read, which may
      raise first), a 5xx raises the server error, anything else returns
      nothing (Python's `None`). */
  function HandleStatusAsWritten(response: Response): (r: Call<Option<int>>)
    ensures IsSuccessful(response.statusCode) ==> r == Returned(Some(response.statusCode))
    ensures IsClientError(response.statusCode) ==>
      if ReadMetaMessage(response.body).Raised? then r == Raised(AttributeError)
      else r.Raised? && r.exc.Api? && r.exc.kind == ApiClient
    ensures IsServerError(response.statusCode) ==> r.Raised? && r.exc.Api? && r.exc.kind == ApiServer
    ensures r == Returned(None) <==>
      !IsSuccessful(response.statusCode) && !IsClientError(response.statusCode) && !IsServerError(response.statusCode)
  {
    var status := response.statusCode;
    if IsSuccessful(status) then Returned(Some(status))
    else if IsClientError(status) then
      match ReadMetaMessage(response.body)
      case Raised(e) => Raised(e)
      case Returned(_) => Raised(Api(ApiClient, ClientErrorMessage(status, response.reason)))
    else if IsServerError(status) then Raised(Api(ApiServer, ServerErrorMessage(status)))
    else Returned(None)
  }

  /** A client-error response whose body is a JSON object without `meta`
      escapes as an AttributeError instead of the client-error exception. */
  lemma AsWrittenMissingMetaEscapes(reason: string, states: Option<seq<State>>)
    ensures HandleStatusAsWritten(Response(400, reason, Object(NoMetaObject, states))) == Raised(AttributeError)
  {
  }

  /** `__handle_response_status` with the best-effort body read kept from
      escaping, as its `try` intends. The body then plays no part. */
  function HandleStatus(response: Response): (r: Call<Option<int>>)
    ensures r == Returned(Some(response.statusCode)) <==> IsSuccessful(response.statusCode)
    ensures r.Raised? && r.exc.Api? && r.exc.kind == ApiClient <==> IsClientError(response.statusCode)
    ensures r.Raised? && r.exc.Api? && r.exc.kind == ApiServer <==> IsServerError(response.statusCode)
    ensures r == Returned(None) <==>
      !IsSuccessful(response.statusCode) && !IsClientError(response.statusCode) && !IsServerError(response.statusCode)
    ensures r.Raised? ==> r.exc.Api? && (r.exc.kind == ApiClient || r.exc.kind == ApiServer)
  {
    var status := response.statusCode;
    if IsSuccessful(status) then Returned(Some(status))
    else if IsClientError(status) then Raised(Api(ApiClient, ClientErrorMessage(status, response.reason)))
    else if IsServerError(status) then Raised(Api(ApiServer, ServerErrorMessage(status)))
    else Returned(None)
  }

  /** The corrected classification differs from the written one exactly on
      client errors whose body is JSON but carries no `meta` object. */
  lemma AsWrittenDiffersOnlyWithoutMeta(response: Response)
    ensures HandleStatusAsWritten(response) != HandleStatus(response) <==>
      IsClientError(response.statusCode) &&
      (response.body.NonObject? || (response.body.Object? && response.body.meta.NoMetaObject?))
  {
  }

  /** The `meta.message` read from the body changes neither the outcome nor
      the message, even as written. */
  lemma AsWrittenIgnoresMetaMessage(status: int, reason: string, m1: Option<string>, m2: Option<string>,
                                    s1: Option<seq<State>>, s2: Option<seq<State>>)
    ensures HandleStatusAsWritten(Response(status, reason, Object(MetaObject(m1), s1))) ==
            HandleStatusAsWritten(Response(status, reason, Object(MetaObject(m2), s2)))
    ensures HandleStatusAsWritten(Response(status, reason, Object(MetaObject(m1), s1))) ==
            HandleStatus(Response(status, reason, NotJson))
  {
  }

  /** The class of a three-digit status is its first decimal digit (section 15
      of RFC 9110): '2' returns it, '4' and '5' raise the generic client and
      server errors, and every other digit falls through without raising. */
  lemma StatusClassIsFirstDigit(response: Response)
    requires 100 <= response.statusCode < 1000
    ensures var d := Decimal(response.statusCode)[0];
      && (HandleStatus(response) == Returned(Some(response.statusCode)) <==> d == '2')
      && ((HandleStatus(response).Raised? && HandleStatus(response).exc.Api? &&
           HandleStatus(response).exc.kind == ApiClient) <==> d == '4')
      && ((HandleStatus(response).Raised? && HandleStatus(response).exc.Api? &&
           HandleStatus(response).exc.kind == ApiServer) <==> d == '5')
      && (HandleStatus(response) == Returned(None) <==> d in {'1', '3', '6', '7', '8', '9'})
  {
    ThreeDigits(response.statusCode);
    var h := response.statusCode / 100;
    assert DigitValue(DigitChar(h)) == h;
  }

  /** The client-error message starts with the three digits of the status,
      which parse back to it, followed by " Client Error " and the reason. */
  lemma ClientErrorMessageCarriesStatus(response: Response)
    requires IsClientError(response.statusCode)
    ensures HandleStatus(response).Raised?
    ensures var m := HandleStatus(response).exc.message;
      && |m| >= 3
      && (forall i :: 0 <= i < 3 ==> IsDigit(m[i]))
      && ParseDecimal(m[..3]) == response.statusCode
      && m[3..] == " Client Error " + response.reason
  {
    var status := response.statusCode;
    ThreeDigits(status);
    DecimalRoundTrip(status);
    var m := HandleStatus(response).exc.message;
    assert m == Decimal(status) + (" Client Error " + response.reason);
    assert m[..3] == Decimal(status);
  }

  /** The server-error message is the three digits of the status, which parse
      back to it, followed by " Server Error.". */
  lemma ServerErrorMessageCarriesStatus(response: Response)
    requires IsServerError(response.statusCode)
    ensures HandleStatus(response).Raised?
    ensures var m := HandleStatus(response).exc.message;
      && |m| == 17
      && (forall i :: 0 <= i < 3 ==> IsDigit(m[i]))
      && ParseDecimal(m[..3]) == response.statusCode
      && m[3..] == " Server Error."
  {
    var status := response.statusCode;
    ThreeDigits(status);
    DecimalRoundTrip(status);
    var m := HandleStatus(response).exc.message;
    assert m[..3] == Decimal(status);
  }

  // ---------------------------------------------------------------------------
  // Requests (`__get`, `get_states`, `get_districts_list`)

  /** `__get`'s copy of `params` into a fresh dictionary; nothing is copied
      when `params` is `None` or empty. */
  method CopyParams(params: Option<map<string, string>>) returns (parameters: map<string, string>)
    ensures params.None? ==> parameters == map[]
    ensures params.Some? ==> parameters == params.value
  {
    parameters := map[];
    if params.Some? && params.value != map[] {
      var source := params.value;
      var remaining := source.Keys;
      while remaining != {}
        invariant remaining <= source.Keys
        invariant parameters.Keys == source.Keys - remaining
        invariant forall key :: key in parameters ==> parameters[key] == source[key]
        decreases remaining
      {
        var key :| key in remaining;
        parameters := parameters[key := source[key]];
        remaining := remaining - {key};
      }
    }
  }

  /** The outcome of `__get` given the transport's answer: a transport failure
      propagates, a 4xx or 5xx response raises, any other response is returned
      unchanged. */
  function GetOutcome(answer: Call<Response>): (r: Call<Response>)
    ensures r.Returned? <==>
      answer.Returned? && !IsClientError(answer.value.statusCode) && !IsServerError(answer.value.statusCode)
    ensures r.Returned? ==> r == answer
    ensures answer.Raised? ==> r == answer
    ensures answer.Returned? && IsClientError(answer.value.statusCode) ==> r.Raised? && r.exc.Api? && r.exc.kind == ApiClient
    ensures answer.Returned? && IsServerError(answer.value.statusCode) ==> r.Raised? && r.exc.Api? && r.exc.kind == ApiServer
    ensures answer.Returned? && HandleStatus(answer.value).Raised? ==> r == Raised(HandleStatus(answer.value).exc)
  {
    match answer
    case Raised(e) => Raised(e)
    case Returned(response) =>
      match HandleStatus(response)
      case Raised(e) => Raised(e)
      case Returned(_) => Returned(response)
  }

  /** `__get`: copies the parameters, hands the request to the transport
      (whose answer is `answer`) and checks the status before returning. */
  method Get(resource: string, params: Option<map<string, string>>, answer: Call<Response>)
    returns (sent: Request, r: Call<Response>)
    ensures sent.resource == resource
    ensures params.None? ==> sent.params == map[]
    ensures params.Some? ==> sent.params == params.value
    ensures r == GetOutcome(answer)
  {
    var parameters := CopyParams(params);
    sent := Request(resource, parameters);
    r := GetOutcome(answer);
  }

  const StatesResource: string := "admin/location/states"

  /** `response.json()['states']`. */
  function StatesField(body: Body): (r: Call<seq<State>>)
    ensures r.Returned? <==> body.Object? && body.states.Some?
    ensures r.Returned? ==> r.value == body.states.value
    ensures body.NotJson? ==> r == Raised(JsonDecodeError)
    ensures body.NonObject? ==> r == Raised(TypeError)
    ensures body.Object? && body.states.None? ==> r == Raised(KeyError("states"))
  {
    match body
    case NotJson => Raised(JsonDecodeError)
    case NonObject => Raised(TypeError)
    case Object(_, states) =>
      match states
      case None => Raised(KeyError("states"))
      case Some(list) => Returned(list)
  }

  /** The outcome of `get_states` given the transport's answer: the body's
      `states` list when the status is not a client or server error, the
      error otherwise. */
  function StatesOutcome(answer: Call<Response>): (r: Call<seq<State>>)
    ensures r.Returned? <==>
      && answer.Returned?
      && !IsClientError(answer.value.statusCode) && !IsServerError(answer.value.statusCode)
      && answer.value.body.Object? && answer.value.body.states.Some?
    ensures r.Returned? ==> r.value == answer.value.body.states.value
    ensures answer.Raised? ==> r == Raised(answer.exc)
    ensures answer.Returned? && IsClientError(answer.value.statusCode) ==> r.Raised? && r.exc.Api? && r.exc.kind == ApiClient
    ensures answer.Returned? && IsServerError(answer.value.statusCode) ==> r.Raised? && r.exc.Api? && r.exc.kind == ApiServer
    ensures answer.Returned? && HandleStatus(answer.value).Raised? ==> r == Raised(HandleStatus(answer.value).exc)
  {
    match GetOutcome(answer)
    case Raised(e) => Raised(e)
    case Returned(response) =>
      match HandleStatus(response)
      case Raised(e) => Raised(e)
      case Returned(_) => StatesField(response.body)
  }

  /** The outcome of `__get` as written: like `GetOutcome`, but a 4xx
      response whose JSON body has no `meta` object escapes as the
      AttributeError of the body read. */
  function GetOutcomeAsWritten(answer: Call<Response>): (r: Call<Response>)
    ensures r.Returned? <==> GetOutcome(answer).Returned?
    ensures r.Returned? ==> r == GetOutcome(answer)
    ensures r != GetOutcome(answer) <==>
      answer.Returned? && IsClientError(answer.value.statusCode) && ReadMetaMessage(answer.value.body).Raised?
    ensures r != GetOutcome(answer) ==> r == Raised(AttributeError)
  {
    match answer
    case Raised(e) => Raised(e)
    case Returned(response) =>
      match HandleStatusAsWritten(response)
      case Raised(e) => Raised(e)
      case Returned(_) => Returned(response)
  }

  /** The outcome of `get_states` as written: it returns exactly when
      `StatesOutcome` does, with the same list, and otherwise differs from it
      only by raising AttributeError in place of the client error. */
  function StatesOutcomeAsWritten(answer: Call<Response>): (r: Call<seq<State>>)
    ensures r.Returned? <==> StatesOutcome(answer).Returned?
    ensures r.Returned? ==> r == StatesOutcome(answer)
    ensures r != StatesOutcome(answer) <==>
      answer.Returned? && IsClientError(answer.value.statusCode) && ReadMetaMessage(answer.value.body).Raised?
    ensures r != StatesOutcome(answer) ==> r == Raised(AttributeError)
  {
    match GetOutcomeAsWritten(answer)
    case Raised(e) => Raised(e)
    case Returned(response) =>
      match HandleStatusAsWritten(response)
      case Raised(e) => Raised(e)
      case Returned(_) => StatesField(response.body)
  }

  /** `get_states`: requests the states resource without parameters, checks
      the status a second time and returns the body's `states` list. */
  method GetStates(answer: Call<Response>) returns (sent: Request, r: Call<seq<State>>)
    ensures sent == Request(StatesResource, map[])
    ensures r == StatesOutcome(answer)
  {
    var response;
    sent, response := Get(StatesResource, None, answer);
    r := StatesOutcome(answer);
  }

  /** The Python values a state id can take in the script. */
  datatype PyValue = PyInt(i: int) | PyStr(s: string) | PyNone

  const DistrictsResource: string := "admin/location/districts/"

  /** `"admin/location/districts/" + state_id`: Python concatenates a string
      only with a string, and raises TypeError for an int or `None`. */
  function DistrictsPath(stateId: PyValue): (r: Call<string>)
    ensures r.Returned? <==> stateId.PyStr?
    ensures r.Raised? ==> r.exc == TypeError
    ensures r.Returned? ==>
      |r.value| >= |DistrictsResource| &&
      r.value[..|DistrictsResource|] == DistrictsResource && r.value[|DistrictsResource|..] == stateId.s
  {
    match stateId
    case PyStr(s) => Returned(DistrictsResource + s)
    case _ => Raised(TypeError)
  }

  /** `get_districts_list`: builds the path and issues no request, so it
      returns `None` (here `Returned(None)`) when the path can be built. */
  function GetDistrictsList(stateId: PyValue): (r: Call<Option<seq<District>>>)
    ensures r.Raised? <==> !stateId.PyStr?
    ensures r.Raised? ==> r.exc == TypeError
    ensures r.Returned? ==> r.value.None?
  {
    match DistrictsPath(stateId)
    case Raised(e) => Raised(e)
    case Returned(_) => Returned(None)
  }
}
