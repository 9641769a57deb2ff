# Blog post manager client, modelled in Dafny

This project models the client of a small blog-post manager, written in
React and TypeScript. The parts it models are these:

- **Session.** `AuthProvider` runs the session as a state machine: login,
  registration followed by login, logout, and start-up hydration from the
  two local-storage keys `authToken` and `user`.
- **Route guard.** `PrivateRoute` lets an authenticated session through and
  redirects every other one to `/login`.
- **Registration screen.** It edits the form, validates it on the client,
  and submits it.
- **Post editor.** `usePostEditor` holds the post, its word count, the busy
  flag and the error message. It loads a post, saves it as a draft or
  publishes it, and maps between the editor's fields and the server's.
- **Editor screen.** `PostEditor` renders the editor's state: the publish
  button, the disabled buttons, the error banner and the settings toggle.
- **Tag panel.** `PostSettings` adds a trimmed tag and removes every copy
  of a tag.
- **Post list.** `usePosts` fetches the list of posts. The drafts and
  published pages filter it and render it.
- **Deletion.** `usePostDelete` guards the id, sends a DELETE request and
  navigates home.
- **Request helpers.** The services layer and the utilities layer each have
  a `makeApiRequest`, which differ in how they report errors.

Each core source file becomes one Dafny module. Three modules are shared:

- `Wrappers` holds `Option` and `Result`.
- `Text` gives JavaScript's `trim`, `split(/\s+/)` and integer rendering
  their exact meaning.
- `Http` describes a fetch as a value `Exchange`. An exchange either fails
  in transport or brings back a status, an ok flag and a body that may or
  may not parse as JSON.

The browser is not modelled; its services become values:

- Local storage is a `map<string, string>`.
- The stored token and the result of `JSON.parse` are parameters.
- `navigate` appends to a recorded list `navigations`.
- A request is returned as a `Request` record. It is not sent.

Code that updates state step by step is modelled as a class whose fields
are that state: `AuthProvider`, the registration `Screen`, the editor,
the editor screen, the settings `Panel`, `Feed` and `Deleter`. Each method
is proved equal to a pure function of the old state and its inputs, such
as `LoginStep`, `SaveCall` or `FetchOutcome`. The lemmas state their
properties about those functions.

## Model

| member | source | states |
|---|---|---|
| Http.OrElse | src/services/api.ts:27 | the message when it is non-empty, else the fallback; never empty when the fallback is not |
| Http.BearerHeaders | src/services/api.ts:19-22 | exactly two headers: the JSON content type and `Bearer ` followed by the token |
| Http.ReadJson | src/services/api.ts:26-29 | succeeds exactly on a 2xx response with a parsable body, which it returns unchanged; a parsed non-2xx response fails with the server's message or the fallback |
| Text.Trim | src/hooks/usePostEditor.tsx:53 | the result is the infix of the input that starts right after its leading whitespace and is followed only by whitespace. It is empty exactly when the input is all ECMAScript whitespace; otherwise it starts and ends with non-whitespace |
| Text.LeadingBlanks | src/hooks/usePostEditor.tsx:53 | the run of whitespace the input starts with: every character before it is whitespace, and the character after it, if any, is not |
| Text.TrimStart | src/hooks/usePostEditor.tsx:53 | the result is the suffix of the input left after a blank prefix, and it starts with non-whitespace |
| Text.TrimEnd | src/hooks/usePostEditor.tsx:53 | the result is the prefix of the input left before a blank suffix, and it ends with non-whitespace |
| Text.Split | src/hooks/usePostEditor.tsx:53 | `split(/\s+/)` yields at least one piece. No piece contains whitespace, and only the first and the last piece can be empty. The first piece is empty exactly when the input is empty or starts with whitespace |
| Text.NonEmpty | src/hooks/usePostEditor.tsx:53 | the filter keeps at most as many pieces as it is given. A string is kept exactly when it is one of the pieces and is non-empty |
| Text.WordCount | src/hooks/usePostEditor.tsx:53 | the word count is 0 exactly when the content is empty or all whitespace |
| Text.SplitCountsWords | src/hooks/usePostEditor.tsx:53 | the non-empty pieces of a whitespace split are as many as the maximal non-whitespace runs (`Words`) |
| Text.WordCountIsWords | src/hooks/usePostEditor.tsx:52-55 | the editor's word count equals the number of maximal non-whitespace runs of the content |
| Text.BlankHasNoWords | src/hooks/usePostEditor.tsx:52-55 | empty or all-whitespace content counts 0 words |
| Text.HelloWorldHasTwoWords | src/hooks/usePostEditor.tsx:52-55 | `"hello   world  "` counts 2 words |
| Text.IntToString | src/components/posts/DraftsPage.tsx:54 | an integer in a template literal is at least one character long and starts with `-` exactly when it is negative |
| Text.IntToStringInjective | src/components/posts/DraftsPage.tsx:54 | distinct integers render as distinct strings |
| AuthContext.GetItem | src/components/auth/AuthContext.tsx:263-264 | `getItem` finds a value exactly when the key is stored, and then it is the stored value |
| AuthContext.SerializeUser | src/components/auth/AuthContext.tsx:242 | `JSON.stringify` of the user: an object that opens with the `id` member and closes with the `role` value, 30 characters longer than its three fields |
| AuthContext.Initial | src/components/auth/AuthContext.tsx:178-183 | the provider starts anonymous: not authenticated, no user, no token, storage untouched, nothing navigated |
| AuthContext.LoginStep | src/components/auth/AuthContext.tsx:213-249 | the result is true exactly for a 2xx response with a parsable body. Then the state is authenticated with the response token and the user `{userId, email, 'USER'}`, and both storage keys are written. Otherwise session and storage are unchanged. The session invariant is kept |
| AuthContext.CredentialsOf | src/components/auth/AuthContext.tsx:203-206 | registration logs in with the email and password only |
| AuthContext.RegisterStep | src/components/auth/AuthContext.tsx:187-211 | a non-2xx registration returns false and does not log in; a 2xx one returns exactly what logging in with the same email and password returns; the invariant is kept |
| AuthContext.LogoutStep | src/components/auth/AuthContext.tsx:251-260 | anonymous state; both keys removed and every other key kept with its value; `/login` appended to the navigations |
| AuthContext.HydrateStep | src/components/auth/AuthContext.tsx:262-278 | both keys truthy and the user parses: authenticated with the stored token. Both truthy and the parse fails: a logout. Either key missing or empty: unchanged. The invariant is kept |
| AuthContext.LogoutIdempotent | src/components/auth/AuthContext.tsx:251-260 | logging out twice leaves the state and the storage as logging out once |
| AuthContext.LogoutSurvivesReload | src/components/auth/AuthContext.tsx:251-278 | after a logout, a reload stays anonymous whatever the stored user parses to |
| AuthContext.LoginSurvivesReload | src/components/auth/AuthContext.tsx:235-273 | after a login with a non-empty token, a reload that parses the stored user back restores the same state |
| AuthContext.AuthProvider.constructor | src/components/auth/AuthContext.tsx:178-183 | the mounted provider is in the initial session and keeps the invariant |
| AuthContext.AuthProvider.Login | src/components/auth/AuthContext.tsx:213-249 | the in-place login produces the session and result of `LoginStep` and keeps the invariant |
| AuthContext.AuthProvider.Register | src/components/auth/AuthContext.tsx:187-211 | the in-place registration produces the session and result of `RegisterStep` |
| AuthContext.AuthProvider.Logout | src/components/auth/AuthContext.tsx:251-260 | the in-place logout produces the session of `LogoutStep` |
| AuthContext.AuthProvider.Hydrate | src/components/auth/AuthContext.tsx:262-278 | the start-up effect produces the session of `HydrateStep` and keeps the invariant |
| AuthContext.UseAuthContext | src/components/auth/AuthContext.tsx:287-293 | outside a provider the context is the anonymous default; inside, the provider's state |
| PrivateRoute.Guard | src/components/auth/PrivateRoute.tsx:5-13 | redirects, with `replace`, to `/login` exactly when not authenticated; otherwise renders the children unchanged |
| PrivateRoute.GuardReadsOnlyAuthenticated | src/components/auth/PrivateRoute.tsx:6 | two states with the same `isAuthenticated` give the same route, whatever their user and token |
| PrivateRoute.GuardAdmitsTokenHolders | src/components/auth/PrivateRoute.tsx:8-12 | in a consistent state the children render exactly when a token is held |
| PrivateRoute.GuardAfterLogout | src/components/auth/PrivateRoute.tsx:8-10 | after a logout every guarded route redirects to `/login` |
| PrivateRoute.GuardOutsideProvider | src/components/auth/PrivateRoute.tsx:5-10 | outside a provider every guarded route redirects |
| RegisterScreen.WithField | src/components/auth/RegisterScreen.tsx:94-164 | an edit sets its own field to the value and leaves the five others as they were |
| RegisterScreen.ValidationError | src/components/auth/RegisterScreen.tsx:33-44 | no error exactly when the passwords match and are at least 6 long. A mismatch reports the mismatch. A short matching password reports the length |
| RegisterScreen.ToRegisterRequest | src/components/auth/RegisterScreen.tsx:47-53 | the payload is the form's email, password and three names |
| RegisterScreen.ConfirmationNotSent | src/components/auth/RegisterScreen.tsx:47-53 | the confirmation field does not affect the payload |
| RegisterScreen.MismatchReportedFirst | src/components/auth/RegisterScreen.tsx:34-44 | a short and mismatched password reports the mismatch |
| RegisterScreen.Screen.constructor | src/components/auth/RegisterScreen.tsx:17-26 | an empty form, no error, not loading |
| RegisterScreen.Screen.EditField | src/components/auth/RegisterScreen.tsx:94-164 | the form becomes `WithField` of the old form; nothing else changes |
| RegisterScreen.Screen.HandleSubmit | src/components/auth/RegisterScreen.tsx:28-65 | an invalid form sets the validation error and leaves the session untouched, without calling register. A valid form sends the form minus the confirmation and moves the session as `RegisterStep` does. A true result navigates to `/`; a false one sets the failure text. The form is unchanged and loading ends false |
| PostEditorHook.PostFromServer | src/hooks/usePostEditor.tsx:71-78 | `description` becomes the content and `featuredImageUrl` the image. Tags, excerpt and flag are taken as served when present, and become `[]`, `''` and false when missing |
| PostEditorHook.CreateRequestBody | src/hooks/usePostEditor.tsx:122-132 | the body carries the post's title, excerpt, tags and image, its content as `description`, and the argument as the publish flag |
| PostEditorHook.RequestBodyIgnoresPostFlag | src/hooks/usePostEditor.tsx:122-132 | the body's publish flag is the argument; the post's own flag has no effect |
| PostEditorHook.SaveThenFetchRoundTrip | src/hooks/usePostEditor.tsx:122-132 | a saved body that a field-for-field backend serves back loads as the same post with the saved flag |
| PostEditorHook.SaveTarget | src/hooks/usePostEditor.tsx:161-162 | PUT to `.../Post/{id}` exactly when there is an id, else POST to `.../Post` |
| PostEditorHook.UpdateUrlNamesPost | src/hooks/usePostEditor.tsx:161 | the id can be read back from the update URL after the collection path |
| PostEditorHook.EditorApiRequest | src/hooks/usePostEditor.tsx:134-154 | without a token nothing is sent and it fails with the not-authenticated text. Otherwise the body is always attached with the bearer headers. A non-2xx response fails with the server's message or the fallback |
| PostEditorHook.SaveCall | src/hooks/usePostEditor.tsx:134-163 | nothing is sent without a token, and the save fails with the not-authenticated text. Otherwise the post's body under the given flag goes to `SaveTarget` of the id with the bearer headers. The save succeeds exactly on a 2xx reply that parses, yielding its body; a parsed non-2xx reply fails with the server's message or the fallback |
| PostEditorHook.SaveRequiresToken | src/hooks/usePostEditor.tsx:135-138 | a save without a token sends nothing and fails with the not-authenticated text |
| PostEditorHook.SaveSendsPostWithFlag | src/hooks/usePostEditor.tsx:159-163 | a sent save carries the post's body with the given flag and the content as description, by PUT exactly when there is an id |
| PostEditorHook.FetchedPost | src/hooks/usePostEditor.tsx:69-81 | a post is installed exactly for a 2xx, parsable, successful response that carries a post, and it is that post mapped by `PostFromServer` |
| PostEditorHook.CountWords | src/hooks/usePostEditor.tsx:52-55 | the word-count effect yields the number of maximal non-whitespace runs of the content |
| PostEditorHook.Editor.constructor | src/hooks/usePostEditor.tsx:34-44 | the initial post, word count 0, not loading, no error |
| PostEditorHook.Editor.SetPost | src/hooks/usePostEditor.tsx:52-55 | replacing the post reruns the word count, so it stays the number of words of the content |
| PostEditorHook.Editor.FetchPost | src/hooks/usePostEditor.tsx:57-86 | a GET of `.../Post/{id}` is sent exactly when there is a token. A usable response replaces the post. Anything else keeps the post and sets the fixed error |
| PostEditorHook.Editor.Mount | src/hooks/usePostEditor.tsx:46-50 | an editor without an id sends nothing and changes nothing. One with an id fetches that post: with a token it sends the GET, and a usable response replaces the post. Without a token or a usable response, the post is kept and the fixed error is set |
| PostEditorHook.Editor.HandleTitleChange | src/hooks/usePostEditor.tsx:88-90 | only the title changes |
| PostEditorHook.Editor.HandleContentChange | src/hooks/usePostEditor.tsx:92-94 | only the content changes, and the word count becomes its number of words |
| PostEditorHook.Editor.HandleRemoveImage | src/hooks/usePostEditor.tsx:110-112 | only the image changes, to none |
| PostEditorHook.Editor.HandleTagsChange | src/hooks/usePostEditor.tsx:114-116 | only the tags change |
| PostEditorHook.Editor.HandleExcerptChange | src/hooks/usePostEditor.tsx:118-120 | only the excerpt changes |
| PostEditorHook.Editor.Save | src/hooks/usePostEditor.tsx:156-172 | sends `SaveCall` of the current post. Success clears the error and navigates to `/`; failure shows the error's message or the fallback. The post is kept and loading ends false |
| PostEditorHook.Editor.SaveDraft | src/hooks/usePostEditor.tsx:156-172 | a save with the publish flag false |
| PostEditorHook.Editor.PublishPost | src/hooks/usePostEditor.tsx:174-189 | a save with the publish flag true |
| PostEditorView.CanPublish | src/components/posts/PostEditor.tsx:52 | publishable exactly when neither title nor content is blank |
| PostEditorView.NonBlankHasWord | src/components/posts/PostEditor.tsx:52 | a non-blank string has at least one word |
| PostEditorView.Render | src/components/posts/PostEditor.tsx:36-153 | the back and publish buttons are disabled exactly while loading. The publish button exists exactly for a publishable post, and its caption is "Publishing..." exactly while loading. The banner shows exactly a truthy error. The preview replaces the upload exactly for a truthy image. The panel shows exactly while toggled open |
| PostEditorView.PublishableHasWords | src/components/posts/PostEditor.tsx:52 | whenever the publish button is shown (the post is publishable), the word count is at least 1 |
| PostEditorView.Screen.constructor | src/components/posts/PostEditor.tsx:9 | the settings panel starts closed |
| PostEditorView.Screen.ToggleSettings | src/components/posts/PostEditor.tsx:63 | each click flips the panel |
| PostEditorView.Screen.HandleSubmit | src/components/posts/PostEditor.tsx:28-31 | submitting publishes: the save sent carries the publish flag true. Success clears the editor's error and navigates to `/`; failure shows the error's message or the fallback and navigates nowhere |
| PostEditorView.Screen.HandleBack | src/components/posts/PostEditor.tsx:38-43 | the back arrow saves a draft: the save sent carries the publish flag false. Success clears the editor's error and navigates to `/`; failure shows the error's message or the fallback and navigates nowhere |
| PostSettings.AddedTags | src/components/posts/PostSettings.tsx:20-25 | nothing for a blank tag. Otherwise the old tags followed by the trimmed tag, which is non-empty |
| PostSettings.AddingCountsOneMore | src/components/posts/PostSettings.tsx:22 | duplicates are allowed: the trimmed tag gains exactly one copy |
| PostSettings.RemoveTag | src/components/posts/PostSettings.tsx:27-29 | no copy of the tag remains, and a tag remains exactly when it was there and differs from the removed one |
| PostSettings.RemoveTagDistributes | src/components/posts/PostSettings.tsx:28 | removal works piecewise over a concatenation, so the order is kept |
| PostSettings.RemoveTagCounts | src/components/posts/PostSettings.tsx:28 | the multiset of the result is that of the input with the tag's count set to 0 |
| PostSettings.RemoveAbsentTag | src/components/posts/PostSettings.tsx:28 | removing an absent tag leaves the list equal |
| PostSettings.RemoveTagIdempotent | src/components/posts/PostSettings.tsx:28 | removing twice equals removing once |
| PostSettings.Panel.constructor | src/components/posts/PostSettings.tsx:18 | the input starts empty |
| PostSettings.Panel.SetNewTag | src/components/posts/PostSettings.tsx:57 | typing sets the input |
| PostSettings.Panel.HandleAddTag | src/components/posts/PostSettings.tsx:20-25 | reports `AddedTags` of the input. It clears the input exactly when a tag was added and otherwise leaves it |
| PostsFeed.FetchOutcome | src/hooks/usePosts.tsx:27-45 | posts exactly for a 2xx, parsable, successful response, and they are its posts. Every failure has a non-empty message: the server's message or "Failed to fetch posts." for a read reply, and the thrown message or "An unknown error occurred." otherwise |
| PostsFeed.Feed.constructor | src/hooks/usePosts.tsx:10-12 | no posts, no error, loading |
| PostsFeed.Feed.FetchPosts | src/hooks/usePosts.tsx:15-49 | without a token there is no request, the not-authenticated error is set and the posts are kept. Otherwise a GET of the list is sent; success replaces the posts and failure sets the error. The error is never empty and loading ends false |
| DraftsPage.DraftPosts | src/components/posts/DraftsPage.tsx:18 | exactly the unpublished posts |
| DraftsPage.DraftPostsDistributes | src/components/posts/DraftsPage.tsx:18 | the filter works piecewise, so the drafts keep their order |
| DraftsPage.DraftRow | src/components/posts/DraftsPage.tsx:40-59 | a row labelled "Draft" with the title and a link to `/editor/{id}` |
| DraftsPage.EditLinkNamesPost | src/components/posts/DraftsPage.tsx:54 | two rows with the same link belong to posts with the same id |
| DraftsPage.RenderDrafts | src/components/posts/DraftsPage.tsx:10-62 | loading comes first, then the error verbatim. The notice shows exactly when there are no drafts; otherwise one row per draft, in order |
| PublishedPage.PublishedPosts | src/components/posts/PublishedPage.tsx:17 | exactly the published posts |
| PublishedPage.PublishedPostsDistributes | src/components/posts/PublishedPage.tsx:17 | the filter works piecewise, so the published posts keep their order |
| PublishedPage.FiltersPartition | src/components/posts/PublishedPage.tsx:17 | the drafts and the published posts together are the list, as multisets; their lengths add up |
| PublishedPage.ExactlyOneList | src/components/posts/PublishedPage.tsx:17 | each post of the list is in exactly one of the two filters |
| PublishedPage.PublishedRow | src/components/posts/PublishedPage.tsx:39-51 | a row labelled "Published" with the title and no link |
| PublishedPage.RenderPublished | src/components/posts/PublishedPage.tsx:9-53 | loading comes first, then the error verbatim. The notice shows exactly when nothing is published; otherwise one row per published post, in order |
| PostDelete.DeleteEndpoint | src/hooks/usePostDelete.tsx:16 | `/Post/` followed by the rendered id |
| PostDelete.DeleteEndpointInjective | src/hooks/usePostDelete.tsx:16 | distinct ids have distinct endpoints |
| PostDelete.Deleter.constructor | src/hooks/usePostDelete.tsx:7 | no error, nothing navigated |
| PostDelete.Deleter.DeletePost | src/hooks/usePostDelete.tsx:9-23 | id 0 sets the guard error, sends nothing and returns undefined. Any other id sends a DELETE without a body through the services helper. Success navigates to `/`, returns true and keeps the error. Failure sets the message or the fallback and returns false |
| ServicesApi.MakeApiRequest | src/services/api.ts:13-30 | without a token nothing is sent and it fails with "User is not authenticated". Otherwise it sends to `BASE_URL + endpoint` with the bearer headers, attaching the body only when given. It succeeds exactly on a 2xx parsable reply, returning its data unchanged; a non-2xx reply fails with the server's message or "API request failed" |
| ServicesApi.ErrorsHaveMessages | src/services/api.ts:14-27 | every error it throws has a non-empty message, provided the transport error or the JSON parse error it passes on has one |
| UtilsApi.GetAuthToken | src/components/utils/api.ts:12-18 | the stored token when it is truthy, else an `ApiError` without status |
| UtilsApi.MakeApiRequest | src/components/utils/api.ts:20-55 | a missing token propagates without a request. Otherwise the method defaults to GET, the URL is the base plus the endpoint and the body is attached as given. It succeeds exactly on a 2xx parsable reply, returning its data unchanged |
| UtilsApi.CallerHeadersOverride | src/components/utils/api.ts:34-38 | the headers are the two defaults plus the caller's; the caller's win on a clash |
| UtilsApi.ErrorClassification | src/components/utils/api.ts:44-54 | a missing token fails as it is. A non-2xx reply fails with its message or the fallback and its status. A transport or parse failure fails as a network error without status |

## Left out

- Network, storage and JSON are not modelled. `fetch`, `localStorage`,
  `JSON.parse` and `JSON.stringify` are inputs or records: an `Exchange`
  value, a storage map, an optional parsed user and a `Request` record.
  Navigation is a recorded list of paths.
- Asynchrony is not modelled. Each handler and effect runs as one atomic
  step, so effect scheduling, re-renders and updates that arrive after
  unmount are absent. The `isLoading` value set while a request is in
  flight cannot be observed; only the final value is stated.
- `handleImageUpload` (src/hooks/usePostEditor.tsx:96-108) is left out. It
  reads a file through the browser's `FileReader`. Only the removal of the
  image is modelled.
- The commented-out first `AuthProvider` (src/components/auth/AuthContext.tsx:1-127)
  is dead code.
- These files are views or wiring with no logic of their own, and are not
  part of this model: the login screen, the sidebar, the layouts, the
  router, the post list and the mock data.
- Dates are shown with `toLocaleDateString`, which depends on the locale. A
  row carries `createdAt` unformatted.
- The editor screen takes a `deletePost` that the editor hook never
  returns. It also passes `authors` props that the settings panel does not
  declare. The model treats the delete callback as absent and leaves out
  the author list.
- The `types/post` module imported by src/components/utils/api.ts is not
  part of this model. The response data is the shared `Body` value.
- AuthContext.SerializeUser: renders the stored user as JSON without
  escaping quotes or backslashes inside the fields.
- AuthContext.HydrateStep: the parse result is an input that is either a
  user record or a parse failure. A stored value that parses to something
  else is outside the model. For example, a stored `"null"` makes the
  source set `isAuthenticated` true with a null user
  (src/components/auth/AuthContext.tsx:266-273), which breaks the
  `Consistent` invariant the model keeps.
- AuthContext.LoginStep: trusts the cast of the response body to a login
  response, so a 2xx body without `userId` or `token` is not modelled.
- RegisterScreen.Screen.HandleSubmit: the `catch` that sets "An unexpected
  error occurred" is not modelled. `register` catches every error itself and
  always resolves to a boolean, so that branch cannot run.
- RegisterScreen.ValidationError: counts the password's length in Unicode
  code points. JavaScript counts UTF-16 code units, so the two differ for
  characters outside the Basic Multilingual Plane.
- PostsFeed.FetchOutcome: a successful response always carries a list of
  posts here. A success body with no `posts` field, which would set `posts`
  to `undefined`, is not modelled.
- PostDelete.Deleter.DeletePost: the id is an integer. `NaN` and fractional
  ids, which the `!postId` guard also meets, are not modelled.
- Text.IntToString: writes every integer in plain decimal. JavaScript uses
  exponent notation from 1e21 upward.
- UtilsApi.MakeApiRequest: the body is an optional record. A falsy body
  (`0`, `''`, `false`) that the `body &&` test would drop is not modelled.
- Features these files do not have are not modelled: token verification,
  handling of empty (204) responses, batch deletion and refetching.
