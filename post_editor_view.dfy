/**
 * The editor screen (`PostEditor`): what it shows for the editor's state,
 * the settings panel toggle, and the form submission that publishes.
 */
module PostEditorView {
  import opened Wrappers
  import opened Text
  import opened Http
  import opened PostEditorHook

  const PublishCaption := "Publish"
  const PublishingCaption := "Publishing..."
  const WordsSuffix := " words"

  /** The publish button, when the screen shows one. */
  datatype PublishButton = PublishButton(disabled: bool, caption: string)

  /** What the screen shows. `imagePreview` is the image shown in place of the upload field. */
  datatype View = View(
    backDisabled: bool,
    publish: Option<PublishButton>,
    banner: Option<string>,
    imagePreview: Option<string>,
    wordCountText: string,
    settingsOpen: bool)

  /**
   * `post.title.trim() && post.content.trim()`: the publish button is offered
   * exactly when neither the title nor the content is blank.
   */
  function CanPublish(post: EditorPost): (b: bool)
    ensures b <==> !Blank(post.title) && !Blank(post.content)
  {
    Trim(post.title) != "" && Trim(post.content) != ""
  }

  /** A string that is not blank holds at least one word. */
  lemma {:induction false} NonBlankHasWord(s: string)
    requires !Blank(s)
    ensures Words(s) >= 1
    decreases |s|
  {
    if !IsWhitespace(s[0]) && (|s| == 1 || IsWhitespace(s[1])) {
    } else if IsWhitespace(s[0]) {
      assert !Blank(s[1..]) by {
        var i :| 0 <= i < |s| && !IsWhitespace(s[i]);
        assert s[1..][i - 1] == s[i];
      }
      NonBlankHasWord(s[1..]);
    } else {
      assert !IsWhitespace(s[1..][0]);
      NonBlankHasWord(s[1..]);
    }
  }

  /**
   * The screen for a state: the back and publish buttons are disabled while
   * a request runs and the publish caption says so; the publish button exists
   * only for a publishable post; the error banner shows a non-empty message;
   * the preview replaces the upload field when an image is set; the settings
   * panel is shown while toggled open.
   */
  function Render(post: EditorPost, isLoading: bool, errorMessage: Option<string>,
                  wordCount: nat, showSettings: bool): (v: View)
    ensures v.backDisabled == isLoading
    ensures v.publish.Some? <==> !Blank(post.title) && !Blank(post.content)
    ensures v.publish.Some? ==> v.publish.value.disabled == isLoading
    ensures v.publish.Some? ==> (v.publish.value.caption == PublishingCaption <==> isLoading)
    ensures v.banner.Some? <==> Truthy(errorMessage)
    ensures v.banner.Some? ==> v.banner == errorMessage && v.banner.value != ""
    ensures v.imagePreview.Some? <==> Truthy(post.featuredImage)
    ensures v.imagePreview.Some? ==> v.imagePreview == post.featuredImage
    ensures v.wordCountText == IntToString(wordCount) + WordsSuffix
    ensures v.settingsOpen == showSettings
  {
    View(
      isLoading,
      if CanPublish(post) then Some(PublishButton(isLoading, if isLoading then PublishingCaption else PublishCaption)) else None,
      if Truthy(errorMessage) then errorMessage else None,
      if Truthy(post.featuredImage) then post.featuredImage else None,
      IntToString(wordCount) + WordsSuffix,
      showSettings)
  }

  /**
   * Whenever the publish button is offered, the word count it shows beside
   * the content is at least one: a publishable post has a word.
   */
  lemma PublishableHasWords(post: EditorPost)
    requires CanPublish(post)
    ensures WordCount(post.content) >= 1
  {
    NonBlankHasWord(post.content);
    WordCountIsWords(post.content);
  }

  /** The screen: the settings toggle over an editor. */
  class Screen {
    var showSettings: bool
    const editor: Editor

    /** Opens on the given editor with the settings panel closed. */
    constructor (editor: Editor)
      ensures this.editor == editor && !showSettings
    {
      this.editor := editor;
      showSettings := false;
    }

    /** The settings button flips the panel. */
    method ToggleSettings()
      modifies this
      ensures showSettings == !old(showSettings)
    {
      showSettings := !showSettings;
    }

    /** Submitting the form publishes the post. */
    method HandleSubmit(token: Option<string>, exchange: Exchange<Body>) returns (call: ApiCall<string>)
      requires editor.Valid()
      modifies editor
      ensures editor.Valid()
      ensures call == SaveCall(editor.postId, old(editor.post), true, token, exchange)
      ensures call.request.Some? ==> call.request.value.body.Some? && call.request.value.body.value.isPublished
      ensures editor.post == old(editor.post) && !editor.isLoading
      ensures call.outcome.Success? ==>
        editor.errorMessage == None && editor.navigations == old(editor.navigations) + [HomePath]
      ensures call.outcome.Failure? ==>
        editor.errorMessage == Some(OrElse(call.outcome.error, UnknownError))
        && editor.navigations == old(editor.navigations)
    {
      call := editor.PublishPost(token, exchange);
    }

    /** The back arrow saves the post as a draft. */
    method HandleBack(token: Option<string>, exchange: Exchange<Body>) returns (call: ApiCall<string>)
      requires editor.Valid()
      modifies editor
      ensures editor.Valid()
      ensures call == SaveCall(editor.postId, old(editor.post), false, token, exchange)
      ensures call.request.Some? ==> call.request.value.body.Some? && !call.request.value.body.value.isPublished
      ensures editor.post == old(editor.post) && !editor.isLoading
      ensures call.outcome.Success? ==>
        editor.errorMessage == None && editor.navigations == old(editor.navigations) + [HomePath]
      ensures call.outcome.Failure? ==>
        editor.errorMessage == Some(OrElse(call.outcome.error, UnknownError))
        && editor.navigations == old(editor.navigations)
    {
      call := editor.SaveDraft(token, exchange);
    }
  }
}
