/** The shape of a post as the list pages receive it from the server. */
module PostTypes {
  import opened Wrappers

  datatype Post = Post(
    id: int,
    content: string,
    createdAt: string,
    createdBy: string,
    status: int,
    viewCount: int,
    isPublished: bool,
    title: string,
    description: string,
    tags: seq<string>,
    featuredImageUrl: Option<string>,
    excerpt: string,
    featuredImage: Option<string>)
}
