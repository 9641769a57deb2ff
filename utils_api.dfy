/** The typed request helper of the utilities layer, with its `ApiError`. */
module UtilsApi {
  import opened Wrappers
  import opened Http

  const ApiBaseUrl := PostServiceUrl
  const NotAuthenticated := "User is not authenticated"
  const RequestFailed := "API request failed"
  const NetworkFailure := "Network error or invalid response"

  /** The error class: a message and, for server-reported failures, the HTTP status. */
  datatype ApiError = ApiError(message: string, statusCode: Option<int>)

  /** Optional settings of a request; absent ones take their defaults. */
  datatype RequestOptions = RequestOptions(
    httpMethod: Option<string>,
    body: Option<RequestBody>,
    headers: Option<map<string, string>>)

  /** The stored token, or an `ApiError` without status when none is stored. */
  function GetAuthToken(stored: Option<string>): (r: Result<string, ApiError>)
    ensures r.Success? <==> Truthy(stored)
    ensures r.Success? ==> r.value == stored.value
    ensures r.Failure? ==> r.error == ApiError(NotAuthenticated, None)
  {
    if Truthy(stored) then Success(stored.value) else Failure(ApiError(NotAuthenticated, None))
  }

  /**
   * Sends a request to `endpoint`. The token is looked up before the error
   * handler is installed, so its error reaches the caller as it is; every
   * other failure is reported as an `ApiError`.
   */
  function MakeApiRequest(stored: Option<string>, endpoint: string, options: RequestOptions,
                          exchange: Exchange<Body>): (r: ApiCall<ApiError>)
    ensures r.request.None? <==> !Truthy(stored)
    ensures !Truthy(stored) ==> r.outcome == Failure(ApiError(NotAuthenticated, None))
    ensures r.request.Some? ==>
      && r.request.value.httpMethod == options.httpMethod.GetOr("GET")
      && r.request.value.url == ApiBaseUrl + endpoint
      && r.request.value.body == options.body
    ensures r.outcome.Success? <==> Truthy(stored) && exchange.Received? && exchange.ok && exchange.json.Parsed?
    ensures r.outcome.Success? ==> r.outcome.value == exchange.json.value
  {
    match GetAuthToken(stored)
    case Failure(e) => ApiCall(None, Failure(e))
    case Success(token) =>
      var headers := BearerHeaders(token) + options.headers.GetOr(map[]);
      var request := Request(options.httpMethod.GetOr("GET"), ApiBaseUrl + endpoint, headers, options.body);
      var outcome :=
        match exchange
        case Received(true, _, Parsed(body)) => Success(body)
        case Received(false, status, Parsed(body)) =>
          Failure(ApiError(OrElse(body.message, RequestFailed), Some(status)))
        case _ => Failure(ApiError(NetworkFailure, None));
      ApiCall(Some(request), outcome)
  }

  /** Headers the caller passes win over the defaults; the other defaults stay. */
  lemma CallerHeadersOverride(stored: Option<string>, endpoint: string, options: RequestOptions,
                              exchange: Exchange<Body>)
    requires Truthy(stored)
    ensures var h := MakeApiRequest(stored, endpoint, options, exchange).request.value.headers;
      var extra := options.headers.GetOr(map[]);
      && h.Keys == {ContentType, Authorization} + extra.Keys
      && (forall k :: k in extra ==> h[k] == extra[k])
      && (ContentType !in extra ==> h[ContentType] == JsonMediaType)
      && (Authorization !in extra ==> h[Authorization] == "Bearer " + stored.value)
  {
  }

  /**
   * The error classes: a server-reported failure carries the response
   * status; a transport or parse failure is rewrapped without a status; a
   * missing token propagates unchanged.
   */
  lemma ErrorClassification(stored: Option<string>, endpoint: string, options: RequestOptions,
                            exchange: Exchange<Body>)
    ensures var r := MakeApiRequest(stored, endpoint, options, exchange);
      r.outcome.Failure? ==>
        || (!Truthy(stored) && r.outcome.error == ApiError(NotAuthenticated, None))
        || (Truthy(stored) && exchange.Received? && !exchange.ok && exchange.json.Parsed?
            && r.outcome.error == ApiError(OrElse(exchange.json.value.message, RequestFailed), Some(exchange.status)))
        || (Truthy(stored) && (exchange.NetworkError? || exchange.json.Malformed?)
            && r.outcome.error == ApiError(NetworkFailure, None))
  {
  }
}
