/** The post list loader (`usePosts`): posts, an error message and a busy flag. */
module PostsFeed {
  import opened Wrappers
  import opened Http
  import opened PostTypes

  const NotAuthenticated := "User is not authenticated."
  const FetchFailed := "Failed to fetch posts."
  const UnknownError := "An unknown error occurred."
  const PostsUrl := PostServiceUrl + "/Post"

  /**
   * What one fetch of the list yields: the posts of a 2xx response that
   * reports success, and otherwise an error message that is never empty —
   * the server's message or a fixed fallback for a reply the client read,
   * the thrown error's message or a fixed fallback for one it could not read.
   */
  function FetchOutcome(exchange: Exchange<Body>): (r: Result<seq<Post>, string>)
    ensures r.Success? <==>
      exchange.Received? && exchange.ok && exchange.json.Parsed? && exchange.json.value.success
    ensures r.Success? ==> r.value == exchange.json.value.posts
    ensures r.Failure? ==> r.error != ""
    ensures exchange.Received? && exchange.json.Parsed? && r.Failure? ==>
      r.error == OrElse(exchange.json.value.message, FetchFailed)
    ensures exchange.NetworkError? ==> r == Failure(OrElse(exchange.message, UnknownError))
    ensures exchange.Received? && exchange.json.Malformed? ==> r == Failure(OrElse(exchange.json.message, UnknownError))
  {
    match exchange
    case NetworkError(m) => Failure(OrElse(m, UnknownError))
    case Received(_, _, Malformed(m)) => Failure(OrElse(m, UnknownError))
    case Received(ok, _, Parsed(body)) =>
      if ok && body.success then Success(body.posts)
      else Failure(OrElse(OrElse(body.message, FetchFailed), UnknownError))
  }

  /** The hook's state. */
  class Feed {
    var posts: seq<Post>
    var error: Option<string>
    var isLoading: bool

    /** Before the first fetch completes: no posts, no error, loading. */
    constructor ()
      ensures posts == [] && error == None && isLoading
    {
      posts := [];
      error := None;
      isLoading := true;
    }

    /**
     * `fetchPosts`: without a token no request is made and the error says so;
     * otherwise a GET of the list, whose outcome replaces the posts or sets
     * the error. The error is cleared first, is never left empty, and the run
     * ends not loading.
     */
    method FetchPosts(token: Option<string>, exchange: Exchange<Body>) returns (request: Option<Request>)
      modifies this
      ensures !isLoading
      ensures error.Some? ==> error.value != ""
      ensures !Truthy(token) ==>
        request == None && error == Some(NotAuthenticated) && posts == old(posts)
      ensures Truthy(token) ==>
        && request == Some(Request("GET", PostsUrl, BearerHeaders(token.value), None))
        && match FetchOutcome(exchange)
           case Success(fetched) => posts == fetched && error == None
           case Failure(message) => posts == old(posts) && error == Some(message)
    {
      isLoading := true;
      error := None;

      if !Truthy(token) {
        error := Some(NotAuthenticated);
        isLoading := false;
        return None;
      }

      request := Some(Request("GET", PostsUrl, BearerHeaders(token.value), None));
      match FetchOutcome(exchange) {
        case Success(fetched) =>
          posts := fetched;
        case Failure(message) =>
          error := Some(message);
      }
      isLoading := false;
    }
  }
}
