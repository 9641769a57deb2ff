/**
 * The client's view of the network. `fetch`, `response.json()` and the
 * backend are not modelled: every call site receives the outcome of its
 * exchange as an input, and the request it would send is recorded as a value.
 */
module Http {
  import opened Wrappers
  import opened PostTypes

  /** The outcome of `response.json()`: `Malformed` when parsing throws. */
  datatype Parse<+T> = Malformed(message: string) | Parsed(value: T)

  /** One exchange with the server: `fetch` rejects, or a response arrives. */
  datatype Exchange<+T> =
    | NetworkError(message: string)
    | Received(ok: bool, status: int, json: Parse<T>)

  /** A post as `GET /Post/{id}` returns it; absent fields are `None`. */
  datatype ServerPost = ServerPost(
    title: string,
    description: string,
    featuredImageUrl: Option<string>,
    tags: Option<seq<string>>,
    excerpt: Option<string>,
    isPublished: Option<bool>)

  /**
   * A parsed response body of the post service. An absent `success` reads as
   * false and an absent `message` as the empty string, which is how the
   * client's `||` and `&&` treat them.
   */
  datatype Body = Body(success: bool, message: string, posts: seq<Post>, post: Option<ServerPost>)

  /** The JSON body the editor sends when it creates or updates a post. */
  datatype RequestBody = RequestBody(
    title: string,
    description: string,
    excerpt: string,
    tags: seq<string>,
    isPublished: bool,
    featuredImage: Option<string>)

  /** What `fetch` is called with. */
  datatype Request = Request(httpMethod: string, url: string, headers: map<string, string>, body: Option<RequestBody>)

  /** A request that was sent (or not) and what the caller got back: a value or a thrown error. */
  datatype ApiCall<+E> = ApiCall(request: Option<Request>, outcome: Result<Body, E>)

  const PostServiceUrl := "http://localhost:8080/api"
  const AuthServiceUrl := "http://localhost:8081/api"
  const ContentType := "Content-Type"
  const Authorization := "Authorization"
  const JsonMediaType := "application/json"

  /** A string value JavaScript treats as true: present and not empty. */
  predicate Truthy(s: Option<string>) {
    s.Some? && s.value != ""
  }

  /** `message || fallback` for a string `message`. */
  function OrElse(message: string, fallback: string): (r: string)
    ensures r == message || r == fallback
    ensures message != "" ==> r == message
    ensures fallback != "" ==> r != ""
  {
    if message != "" then message else fallback
  }

  /** The JSON content type and the bearer credential every authenticated request carries. */
  function BearerHeaders(token: string): (h: map<string, string>)
    ensures h.Keys == {ContentType, Authorization}
    ensures h[ContentType] == JsonMediaType && h[Authorization] == "Bearer " + token
  {
    map[ContentType := JsonMediaType, Authorization := "Bearer " + token]
  }

  /**
   * Reads a response the way both request wrappers do: a rejected fetch or
   * an unparsable body throws its own error, a non-2xx response throws the
   * server's message or `fallback`, and a 2xx response yields its body.
   */
  function ReadJson(exchange: Exchange<Body>, fallback: string): (r: Result<Body, string>)
    ensures r.Success? <==> exchange.Received? && exchange.ok && exchange.json.Parsed?
    ensures r.Success? ==> r.value == exchange.json.value
    ensures exchange.Received? && !exchange.ok && exchange.json.Parsed? ==>
      r == Failure(OrElse(exchange.json.value.message, fallback))
  {
    match exchange
    case NetworkError(m) => Failure(m)
    case Received(ok, _, Malformed(m)) => Failure(m)
    case Received(ok, _, Parsed(body)) =>
      if ok then Success(body) else Failure(OrElse(body.message, fallback))
  }
}
