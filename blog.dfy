/** The records the blog front end passes around: posts as the REST endpoint
    returns them, and the two outcomes of the endpoint's read and create calls.
    The HTTP requests themselves are not modelled; their outcome is an input. */
module Blog {

  /** The author field is a number on posts the server returns and an
      uncoerced form string on posts created locally. */
  datatype UserId = NumericId(n: int) | TextId(s: string)

  /** A post of the `/posts` collection. */
  datatype Post = Post(id: int, title: string, body: string, userId: UserId)

  /** Outcome of the GET request for one page: the page of posts and the total
      count the server reports in its `x-total-count` header, or a failure. */
  datatype FetchResult = Fetched(page: seq<Post>, totalCount: nat) | FetchFailed

  /** Outcome of the POST request that creates a post: the server's echo of the
      created post, or a failure. */
  datatype CreateResult = Created(post: Post) | CreateFailed
}
