/**
 * The editor's state (`usePostEditor`): the post being edited, its word
 * count, the busy flag, the error message, and the requests that load and
 * save the post.
 */
module PostEditorHook {
  import opened Wrappers
  import opened Text
  import opened Http

  /** The post as the editor holds it. */
  datatype EditorPost = EditorPost(
    title: string,
    content: string,
    featuredImage: Option<string>,
    tags: seq<string>,
    excerpt: string,
    isPublished: bool)

  const InitialPost := EditorPost("", "", None, [], "", false)

  const PostCollectionUrl := PostServiceUrl + "/Post"
  const FetchPostError := "An error occurred while fetching the post"
  const UnknownError := "An unknown error occurred"
  const NotAuthenticated := "User is not authenticated"
  const RequestFailed := "API request failed"
  const HomePath := "/"

  /** `createRequestBody(shouldPublish)`: `content` travels as `description`, the flag is the argument. */
  function CreateRequestBody(post: EditorPost, shouldPublish: bool): (r: RequestBody)
    ensures r.title == post.title && r.description == post.content && r.excerpt == post.excerpt
    ensures r.tags == post.tags && r.featuredImage == post.featuredImage
    ensures r.isPublished == shouldPublish
  {
    RequestBody(post.title, post.content, post.excerpt, post.tags, shouldPublish, post.featuredImage)
  }

  /** The body's publish flag is the argument; the post's own flag is ignored. */
  lemma RequestBodyIgnoresPostFlag(post: EditorPost, flag: bool, shouldPublish: bool)
    ensures CreateRequestBody(post, shouldPublish).isPublished == shouldPublish
    ensures CreateRequestBody(post.(isPublished := flag), shouldPublish) == CreateRequestBody(post, shouldPublish)
  {
  }

  /**
   * The post `fetchPost` installs: `description` becomes `content`,
   * `featuredImageUrl` becomes `featuredImage`, and absent tags, excerpt and
   * publish flag default to none, the empty string and false.
   */
  function PostFromServer(p: ServerPost): (r: EditorPost)
    ensures r.title == p.title && r.content == p.description && r.featuredImage == p.featuredImageUrl
    ensures p.tags.None? ==> r.tags == []
    ensures p.tags.Some? ==> r.tags == p.tags.value
    ensures p.excerpt.None? ==> r.excerpt == ""
    ensures p.excerpt.Some? ==> r.excerpt == p.excerpt.value
    ensures p.isPublished.None? ==> !r.isPublished
    ensures p.isPublished.Some? ==> r.isPublished == p.isPublished.value
  {
    EditorPost(
      p.title, p.description, p.featuredImageUrl,
      p.tags.GetOr([]), p.excerpt.GetOr(""), p.isPublished.GetOr(false))
  }

  /**
   * How a backend that stores a request body field for field serves it back,
   * the image under `featuredImageUrl`. This is an assumption about the
   * server, which is not part of the client.
   */
  function StoredAs(b: RequestBody): ServerPost {
    ServerPost(b.title, b.description, b.featuredImage, Some(b.tags), Some(b.excerpt), Some(b.isPublished))
  }

  /**
   * The two renamings are inverse: a post saved with a flag and fetched back
   * from such a backend is the post with that flag.
   */
  lemma SaveThenFetchRoundTrip(post: EditorPost, shouldPublish: bool)
    ensures PostFromServer(StoredAs(CreateRequestBody(post, shouldPublish))) == post.(isPublished := shouldPublish)
  {
  }

  /** The method and URL a save uses. */
  datatype Target = Target(httpMethod: string, url: string)

  /** A post with an id is updated in place; one without is created. */
  function SaveTarget(postId: Option<string>): (t: Target)
    ensures t.httpMethod == "PUT" <==> Truthy(postId)
    ensures t.httpMethod == "POST" <==> !Truthy(postId)
    ensures Truthy(postId) ==> t.url == PostCollectionUrl + "/" + postId.value
    ensures !Truthy(postId) ==> t.url == PostCollectionUrl
  {
    if Truthy(postId) then Target("PUT", PostCollectionUrl + "/" + postId.value)
    else Target("POST", PostCollectionUrl)
  }

  /** An update's URL names the post: the id can be read back after the collection's path. */
  lemma UpdateUrlNamesPost(postId: Option<string>)
    requires Truthy(postId)
    ensures var url := SaveTarget(postId).url;
      |url| > |PostCollectionUrl| + 1 && url[..|PostCollectionUrl|] == PostCollectionUrl
      && url[|PostCollectionUrl| + 1..] == postId.value
  {
  }

  /**
   * The editor's own request helper: without a token it throws before
   * anything is sent; the body is always attached; the response is read as
   * the shared helper reads it.
   */
  function EditorApiRequest(token: Option<string>, target: Target, body: RequestBody,
                            exchange: Exchange<Body>): (r: ApiCall<string>)
    ensures r.request.None? <==> !Truthy(token)
    ensures !Truthy(token) ==> r.outcome == Failure(NotAuthenticated)
    ensures r.request.Some? ==>
      r.request.value == Request(target.httpMethod, target.url, BearerHeaders(token.value), Some(body))
    ensures r.outcome.Success? <==> Truthy(token) && exchange.Received? && exchange.ok && exchange.json.Parsed?
    ensures r.outcome.Success? ==> r.outcome.value == exchange.json.value
    ensures Truthy(token) && exchange.Received? && !exchange.ok && exchange.json.Parsed? ==>
      r.outcome == Failure(OrElse(exchange.json.value.message, RequestFailed))
  {
    if !Truthy(token) then ApiCall(None, Failure(NotAuthenticated))
    else ApiCall(Some(Request(target.httpMethod, target.url, BearerHeaders(token.value), Some(body))),
                 ReadJson(exchange, RequestFailed))
  }

  /**
   * The request a save of `post` sends, and its outcome: nothing is sent
   * without a token; otherwise the post's body under the given flag goes to
   * the create or update endpoint, and the save succeeds exactly on a 2xx
   * reply that parses.
   */
  function SaveCall(postId: Option<string>, post: EditorPost, shouldPublish: bool,
                    token: Option<string>, exchange: Exchange<Body>): (r: ApiCall<string>)
    ensures r.request.None? <==> !Truthy(token)
    ensures !Truthy(token) ==> r.outcome == Failure(NotAuthenticated)
    ensures r.request.Some? ==>
      var target := SaveTarget(postId);
      r.request.value == Request(target.httpMethod, target.url, BearerHeaders(token.value),
                                 Some(CreateRequestBody(post, shouldPublish)))
    ensures r.outcome.Success? <==> Truthy(token) && exchange.Received? && exchange.ok && exchange.json.Parsed?
    ensures r.outcome.Success? ==> r.outcome.value == exchange.json.value
    ensures Truthy(token) && exchange.Received? && !exchange.ok && exchange.json.Parsed? ==>
      r.outcome == Failure(OrElse(exchange.json.value.message, RequestFailed))
  {
    EditorApiRequest(token, SaveTarget(postId), CreateRequestBody(post, shouldPublish), exchange)
  }

  /** A save without a token sends nothing and fails, whatever the post holds. */
  lemma SaveRequiresToken(postId: Option<string>, post: EditorPost, shouldPublish: bool,
                          token: Option<string>, exchange: Exchange<Body>)
    requires !Truthy(token)
    ensures SaveCall(postId, post, shouldPublish, token, exchange) == ApiCall(None, Failure(NotAuthenticated))
  {
  }

  /**
   * A save that is sent carries the post under the given flag, and goes to
   * the post's own URL by PUT exactly when the editor has an id.
   */
  lemma SaveSendsPostWithFlag(postId: Option<string>, post: EditorPost, shouldPublish: bool,
                              token: Option<string>, exchange: Exchange<Body>)
    ensures var c := SaveCall(postId, post, shouldPublish, token, exchange);
      c.request.Some? ==>
        && c.request.value.body == Some(CreateRequestBody(post, shouldPublish))
        && c.request.value.body.value.isPublished == shouldPublish
        && c.request.value.body.value.description == post.content
        && (c.request.value.httpMethod == "PUT" <==> Truthy(postId))
  {
  }

  /** The post a fetch installs, if the response is 2xx, reports success and carries a post. */
  function FetchedPost(exchange: Exchange<Body>): (r: Option<EditorPost>)
    ensures r.Some? <==>
      exchange.Received? && exchange.ok && exchange.json.Parsed?
      && exchange.json.value.success && exchange.json.value.post.Some?
    ensures r.Some? ==> r.value == PostFromServer(exchange.json.value.post.value)
  {
    match exchange
    case Received(true, _, Parsed(body)) =>
      if body.success && body.post.Some? then Some(PostFromServer(body.post.value)) else None
    case _ => None
  }

  /**
   * The word-count effect: the split-based count of the content, which is
   * the number of its maximal non-whitespace runs.
   */
  method CountWords(content: string) returns (n: nat)
    ensures n == Words(content)
  {
    n := WordCount(content);
    WordCountIsWords(content);
  }

  /** The editor's state. The word-count effect is folded into every change of the content. */
  class Editor {
    const postId: Option<string>
    var post: EditorPost
    var wordCount: nat
    var isLoading: bool
    var errorMessage: Option<string>
    var navigations: seq<string>

    /** The word count is always that of the current content. */
    predicate Valid()
      reads this`post, this`wordCount
    {
      wordCount == Words(post.content)
    }

    constructor (postId: Option<string>)
      ensures Valid()
      ensures this.postId == postId && post == InitialPost && wordCount == 0
      ensures !isLoading && errorMessage == None && navigations == []
    {
      this.postId := postId;
      post := InitialPost;
      wordCount := 0;
      isLoading := false;
      errorMessage := None;
      navigations := [];
    }

    /** Replaces the post and reruns the word-count effect. */
    method SetPost(p: EditorPost)
      modifies this
      ensures Valid()
      ensures post == p
      ensures isLoading == old(isLoading) && errorMessage == old(errorMessage) && navigations == old(navigations)
    {
      post := p;
      wordCount := CountWords(p.content);
    }

    /**
     * `fetchPost(id)`: with a token, a GET of the post; a usable response
     * replaces the post, anything else (no token included) leaves it and sets
     * the fixed error message.
     */
    method FetchPost(id: string, token: Option<string>, exchange: Exchange<Body>) returns (request: Option<Request>)
      requires Valid()
      modifies this
      ensures Valid()
      ensures request.None? <==> !Truthy(token)
      ensures request.Some? ==> request.value == Request("GET", PostCollectionUrl + "/" + id, BearerHeaders(token.value), None)
      ensures Truthy(token) && FetchedPost(exchange).Some? ==>
        post == FetchedPost(exchange).value && errorMessage == old(errorMessage)
      ensures !(Truthy(token) && FetchedPost(exchange).Some?) ==>
        post == old(post) && errorMessage == Some(FetchPostError)
      ensures isLoading == old(isLoading) && navigations == old(navigations)
      ensures !(Truthy(token) && FetchedPost(exchange).Some?) ==> wordCount == old(wordCount)
    {
      if !Truthy(token) {
        errorMessage := Some(FetchPostError);
        return None;
      }
      request := Some(Request("GET", PostCollectionUrl + "/" + id, BearerHeaders(token.value), None));
      var fetched := FetchedPost(exchange);
      if fetched.Some? {
        SetPost(fetched.value);
      } else {
        errorMessage := Some(FetchPostError);
      }
    }

    /** The mount effect: an editor opened on an existing post loads it. */
    method Mount(token: Option<string>, exchange: Exchange<Body>) returns (request: Option<Request>)
      requires Valid()
      modifies this
      ensures Valid()
      ensures !Truthy(postId) ==> request == None && post == old(post) && errorMessage == old(errorMessage)
      ensures Truthy(postId) && Truthy(token) ==>
        request == Some(Request("GET", PostCollectionUrl + "/" + postId.value, BearerHeaders(token.value), None))
      ensures Truthy(postId) && !Truthy(token) ==> request == None
      ensures Truthy(postId) && Truthy(token) && FetchedPost(exchange).Some? ==>
        post == FetchedPost(exchange).value && errorMessage == old(errorMessage)
      ensures Truthy(postId) && !(Truthy(token) && FetchedPost(exchange).Some?) ==>
        post == old(post) && errorMessage == Some(FetchPostError)
      ensures isLoading == old(isLoading) && navigations == old(navigations)
    {
      request := None;
      if Truthy(postId) {
        request := FetchPost(postId.value, token, exchange);
      }
    }

    method HandleTitleChange(value: string)
      requires Valid()
      modifies this
      ensures Valid()
      ensures post == old(post).(title := value) && wordCount == old(wordCount)
      ensures isLoading == old(isLoading) && errorMessage == old(errorMessage) && navigations == old(navigations)
    {
      post := post.(title := value);
    }

    method HandleContentChange(value: string)
      modifies this
      ensures Valid()
      ensures post == old(post).(content := value) && wordCount == Words(value)
      ensures isLoading == old(isLoading) && errorMessage == old(errorMessage) && navigations == old(navigations)
    {
      SetPost(post.(content := value));
    }

    method HandleRemoveImage()
      requires Valid()
      modifies this
      ensures Valid()
      ensures post == old(post).(featuredImage := None) && wordCount == old(wordCount)
      ensures isLoading == old(isLoading) && errorMessage == old(errorMessage) && navigations == old(navigations)
    {
      post := post.(featuredImage := None);
    }

    method HandleTagsChange(tags: seq<string>)
      requires Valid()
      modifies this
      ensures Valid()
      ensures post == old(post).(tags := tags) && wordCount == old(wordCount)
      ensures isLoading == old(isLoading) && errorMessage == old(errorMessage) && navigations == old(navigations)
    {
      post := post.(tags := tags);
    }

    method HandleExcerptChange(excerpt: string)
      requires Valid()
      modifies this
      ensures Valid()
      ensures post == old(post).(excerpt := excerpt) && wordCount == old(wordCount)
      ensures isLoading == old(isLoading) && errorMessage == old(errorMessage) && navigations == old(navigations)
    {
      post := post.(excerpt := excerpt);
    }

    /**
     * The body shared by `saveDraft` and `publishPost`: clear the error,
     * send the post with the given flag to the create or update endpoint,
     * navigate home on success or show the error's message otherwise, and
     * end not loading. The post and its word count are left as they were.
     */
    method Save(shouldPublish: bool, token: Option<string>, exchange: Exchange<Body>) returns (call: ApiCall<string>)
      modifies this
      ensures call == SaveCall(postId, old(post), shouldPublish, token, exchange)
      ensures post == old(post) && wordCount == old(wordCount) && !isLoading
      ensures call.outcome.Success? ==> errorMessage == None && navigations == old(navigations) + [HomePath]
      ensures call.outcome.Failure? ==>
        errorMessage == Some(OrElse(call.outcome.error, UnknownError)) && navigations == old(navigations)
    {
      isLoading := true;
      errorMessage := None;
      call := SaveCall(postId, post, shouldPublish, token, exchange);
      match call.outcome {
        case Success(_) =>
          navigations := navigations + [HomePath];
        case Failure(message) =>
          errorMessage := Some(OrElse(message, UnknownError));
      }
      isLoading := false;
    }

    /** `saveDraft`: a save with the publish flag false. */
    method SaveDraft(token: Option<string>, exchange: Exchange<Body>) returns (call: ApiCall<string>)
      requires Valid()
      modifies this
      ensures Valid()
      ensures call == SaveCall(postId, old(post), false, token, exchange)
      ensures post == old(post) && !isLoading
      ensures call.outcome.Success? ==> errorMessage == None && navigations == old(navigations) + [HomePath]
      ensures call.outcome.Failure? ==>
        errorMessage == Some(OrElse(call.outcome.error, UnknownError)) && navigations == old(navigations)
    {
      call := Save(false, token, exchange);
    }

    /** `publishPost`: a save with the publish flag true. */
    method PublishPost(token: Option<string>, exchange: Exchange<Body>) returns (call: ApiCall<string>)
      requires Valid()
      modifies this
      ensures Valid()
      ensures call == SaveCall(postId, old(post), true, token, exchange)
      ensures post == old(post) && !isLoading
      ensures call.outcome.Success? ==> errorMessage == None && navigations == old(navigations) + [HomePath]
      ensures call.outcome.Failure? ==>
        errorMessage == Some(OrElse(call.outcome.error, UnknownError)) && navigations == old(navigations)
    {
      call := Save(true, token, exchange);
    }
  }
}
