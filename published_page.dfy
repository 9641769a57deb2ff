/** The published page: the published posts, or a loading, error or empty notice. */
module PublishedPage {
  import opened Wrappers
  import opened Http
  import opened PostTypes
  import opened DraftsPage

  const NoPublished := "No published posts yet. Start by publishing a draft!"
  const PublishedLabel := "Published"

  /** `posts.filter(post => post.isPublished)`. */
  function PublishedPosts(posts: seq<Post>): (r: seq<Post>)
    ensures forall p :: p in r <==> p in posts && p.isPublished
    ensures |r| <= |posts|
  {
    if posts == [] then []
    else if posts[0].isPublished then [posts[0]] + PublishedPosts(posts[1..])
    else PublishedPosts(posts[1..])
  }

  /** The filter works piece by piece, so the published posts keep their order. */
  lemma {:induction false} PublishedPostsDistributes(a: seq<Post>, b: seq<Post>)
    ensures PublishedPosts(a + b) == PublishedPosts(a) + PublishedPosts(b)
    decreases |a|
  {
    if a == [] {
      assert a + b == b;
    } else {
      assert (a + b)[1..] == a[1..] + b;
      PublishedPostsDistributes(a[1..], b);
    }
  }

  /**
   * The two filters partition the list: every post lands in exactly one of
   * them, as often as it occurs, and the lengths add up.
   */
  lemma {:induction false} FiltersPartition(posts: seq<Post>)
    ensures multiset(DraftPosts(posts)) + multiset(PublishedPosts(posts)) == multiset(posts)
    ensures |DraftPosts(posts)| + |PublishedPosts(posts)| == |posts|
    decreases |posts|
  {
    if posts != [] {
      FiltersPartition(posts[1..]);
      assert posts == [posts[0]] + posts[1..];
    }
  }

  /** No post is in both lists, and each post of the list is in one of them. */
  lemma ExactlyOneList(posts: seq<Post>, p: Post)
    requires p in posts
    ensures p in DraftPosts(posts) <==> p !in PublishedPosts(posts)
  {
  }

  /** A published post's row: the "Published" label and no edit link. */
  function PublishedRow(p: Post): (row: Row)
    ensures row.badge == PublishedLabel && row.title == p.title && row.editLink.None?
  {
    Row(p.title, p.createdBy, p.createdAt, PublishedLabel, None)
  }

  /**
   * The page: loading first, then an error shown as it is, then the notice
   * for no published posts, else one row per published post in order.
   */
  function RenderPublished(posts: seq<Post>, isLoading: bool, error: Option<string>): (v: Page)
    ensures isLoading ==> v == Loading
    ensures !isLoading && Truthy(error) ==> v == ErrorText(error.value)
    ensures v.EmptyNotice? <==> !isLoading && !Truthy(error) && PublishedPosts(posts) == []
    ensures v.EmptyNotice? ==> v.message == NoPublished
    ensures v.Rows? ==>
      && !isLoading && !Truthy(error)
      && |v.rows| == |PublishedPosts(posts)|
      && forall i :: 0 <= i < |v.rows| ==> v.rows[i] == PublishedRow(PublishedPosts(posts)[i])
  {
    if isLoading then Loading
    else if Truthy(error) then ErrorText(error.value)
    else
      var published := PublishedPosts(posts);
      if |published| == 0 then EmptyNotice(NoPublished)
      else Rows(seq(|published|, i requires 0 <= i < |published| => PublishedRow(published[i])))
  }
}
