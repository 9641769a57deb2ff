/** The drafts page: the unpublished posts, or a loading, error or empty notice. */
module DraftsPage {
  import opened Wrappers
  import opened Text
  import opened Http
  import opened PostTypes

  /** One row of a post list. `editLink` is the row's edit link, if it has one. */
  datatype Row = Row(title: string, createdBy: string, createdAt: string, badge: string, editLink: Option<string>)

  /** What a post list page renders. */
  datatype Page = Loading | ErrorText(message: string) | EmptyNotice(message: string) | Rows(rows: seq<Row>)

  const LoadingText := "Loading..."
  const NoDrafts := "No drafts found. Start writing a new post!"
  const DraftLabel := "Draft"
  const EditorPath := "/editor/"

  /** `posts.filter(post => !post.isPublished)`. */
  function DraftPosts(posts: seq<Post>): (r: seq<Post>)
    ensures forall p :: p in r <==> p in posts && !p.isPublished
    ensures |r| <= |posts|
  {
    if posts == [] then []
    else if !posts[0].isPublished then [posts[0]] + DraftPosts(posts[1..])
    else DraftPosts(posts[1..])
  }

  /** The filter keeps the drafts in their original order. */
  lemma {:induction false} DraftPostsDistributes(a: seq<Post>, b: seq<Post>)
    ensures DraftPosts(a + b) == DraftPosts(a) + DraftPosts(b)
    decreases |a|
  {
    if a == [] {
      assert a + b == b;
    } else {
      assert (a + b)[1..] == a[1..] + b;
      DraftPostsDistributes(a[1..], b);
    }
  }

  /** A draft's row: its title, author and date, the "Draft" label and a link to its editor. */
  function DraftRow(p: Post): (row: Row)
    ensures row.badge == DraftLabel && row.title == p.title
    ensures row.editLink == Some(EditorPath + IntToString(p.id))
  {
    Row(p.title, p.createdBy, p.createdAt, DraftLabel, Some(EditorPath + IntToString(p.id)))
  }

  /** Two rows with the same edit link belong to posts with the same id. */
  lemma EditLinkNamesPost(p: Post, q: Post)
    requires DraftRow(p).editLink == DraftRow(q).editLink
    ensures p.id == q.id
  {
    var a, b := IntToString(p.id), IntToString(q.id);
    assert (EditorPath + a)[|EditorPath|..] == a;
    assert (EditorPath + b)[|EditorPath|..] == b;
    IntToStringInjective(p.id, q.id);
  }

  /**
   * The page: loading first, then an error (any non-empty message, shown as
   * it is), then the notice for no drafts, else one row per draft in order.
   */
  function RenderDrafts(posts: seq<Post>, isLoading: bool, error: Option<string>): (v: Page)
    ensures isLoading ==> v == Loading
    ensures !isLoading && Truthy(error) ==> v == ErrorText(error.value)
    ensures v.EmptyNotice? <==> !isLoading && !Truthy(error) && DraftPosts(posts) == []
    ensures v.EmptyNotice? ==> v.message == NoDrafts
    ensures v.Rows? ==>
      && !isLoading && !Truthy(error)
      && |v.rows| == |DraftPosts(posts)|
      && forall i :: 0 <= i < |v.rows| ==> v.rows[i] == DraftRow(DraftPosts(posts)[i])
  {
    if isLoading then Loading
    else if Truthy(error) then ErrorText(error.value)
    else
      var drafts := DraftPosts(posts);
      if |drafts| == 0 then EmptyNotice(NoDrafts)
      else Rows(seq(|drafts|, i requires 0 <= i < |drafts| => DraftRow(drafts[i])))
  }
}
