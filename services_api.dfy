/** The shared request helper of the post service (`makeApiRequest` in the services layer). */
module ServicesApi {
  import opened Wrappers
  import opened Http

  const BaseUrl := PostServiceUrl
  const NotAuthenticated := "User is not authenticated"
  const RequestFailed := "API request failed"

  /**
   * Sends `httpMethod endpoint` with the stored token. Without a token it throws
   * before anything is sent; otherwise the body is attached only when given,
   * a non-2xx response throws the server's message or a generic one, and a
   * 2xx response yields the parsed body unchanged.
   */
  function MakeApiRequest(
    token: Option<string>, httpMethod: string, endpoint: string,
    body: Option<RequestBody>, exchange: Exchange<Body>): (r: ApiCall<string>)
    ensures r.request.None? <==> !Truthy(token)
    ensures !Truthy(token) ==> r.outcome == Failure(NotAuthenticated)
    ensures r.request.Some? ==>
      && r.request.value.httpMethod == httpMethod
      && r.request.value.url == BaseUrl + endpoint
      && r.request.value.headers == BearerHeaders(token.value)
      && r.request.value.body == body
    ensures r.outcome.Success? <==> Truthy(token) && exchange.Received? && exchange.ok && exchange.json.Parsed?
    ensures r.outcome.Success? ==> r.outcome.value == exchange.json.value
    ensures Truthy(token) && exchange.Received? && !exchange.ok && exchange.json.Parsed? ==>
      r.outcome == Failure(OrElse(exchange.json.value.message, RequestFailed))
  {
    if !Truthy(token) then ApiCall(None, Failure(NotAuthenticated))
    else
      var request := Request(httpMethod, BaseUrl + endpoint, BearerHeaders(token.value), body);
      ApiCall(Some(request), ReadJson(exchange, RequestFailed))
  }

  /**
   * Every error the helper throws carries a non-empty message, unless the
   * error it passes on (the transport's or the JSON parser's) has an empty one.
   */
  lemma ErrorsHaveMessages(token: Option<string>, httpMethod: string, endpoint: string,
                           body: Option<RequestBody>, exchange: Exchange<Body>)
    requires exchange.NetworkError? ==> exchange.message != ""
    requires exchange.Received? && exchange.json.Malformed? ==> exchange.json.message != ""
    ensures var r := MakeApiRequest(token, httpMethod, endpoint, body, exchange);
      r.outcome.Failure? ==> r.outcome.error != ""
  {
  }
}
