/** Deleting a post (`usePostDelete`): a guard on the id, a DELETE request, and navigation home. */
module PostDelete {
  import opened Wrappers
  import opened Text
  import opened Http
  import ServicesApi

  const NoPostId := "No post ID found, unable to delete."
  const UnknownError := "An unknown error occurred"
  const HomePath := "/"

  /** What `deletePost` resolves to: nothing after the guard, else whether the request succeeded. */
  datatype DeleteResult = Undefined | Returned(deleted: bool)

  /** The endpoint of a post, relative to the service's base URL. */
  function DeleteEndpoint(postId: int): (e: string)
    ensures |e| > 6 && e[..6] == "/Post/" && e[6..] == IntToString(postId)
  {
    "/Post/" + IntToString(postId)
  }

  /** Distinct posts are deleted through distinct endpoints. */
  lemma DeleteEndpointInjective(a: int, b: int)
    requires DeleteEndpoint(a) == DeleteEndpoint(b)
    ensures a == b
  {
    IntToStringInjective(a, b);
  }

  /** The hook's state: its error message and the paths it navigated to. */
  class Deleter {
    var error: Option<string>
    var navigations: seq<string>

    constructor ()
      ensures error == None && navigations == []
    {
      error := None;
      navigations := [];
    }

    /**
     * `deletePost(postId)`: a zero id is refused before any request; any
     * other id is deleted through the service, and the hook navigates home
     * and resolves to true, or records the error's message and resolves to
     * false.
     */
    method DeletePost(postId: int, token: Option<string>, exchange: Exchange<Body>)
      returns (result: DeleteResult, request: Option<Request>)
      modifies this
      ensures postId == 0 ==>
        result == Undefined && request == None && error == Some(NoPostId) && navigations == old(navigations)
      ensures postId != 0 ==>
        var call := ServicesApi.MakeApiRequest(token, "DELETE", DeleteEndpoint(postId), None, exchange);
        && request == call.request
        && (call.outcome.Success? ==>
              result == Returned(true) && error == old(error) && navigations == old(navigations) + [HomePath])
        && (call.outcome.Failure? ==>
              result == Returned(false) && error == Some(OrElse(call.outcome.error, UnknownError))
              && navigations == old(navigations))
      ensures request.Some? ==> request.value.httpMethod == "DELETE" && request.value.body.None?
    {
      if postId == 0 {
        error := Some(NoPostId);
        return Undefined, None;
      }
      var call := ServicesApi.MakeApiRequest(token, "DELETE", DeleteEndpoint(postId), None, exchange);
      request := call.request;
      match call.outcome {
        case Success(_) =>
          navigations := navigations + [HomePath];
          result := Returned(true);
        case Failure(message) =>
          error := Some(OrElse(message, UnknownError));
          result := Returned(false);
      }
    }
  }
}
