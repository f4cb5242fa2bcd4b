/** The plain paginated post listing: it holds one fetched page of ten posts
    and the current and total page numbers. */
module PagedPosts {
  import opened Blog
  import opened Pagination

  /** Posts requested per page. */
  const PostsPerPage: nat := 10

  class Posts {
    var posts: seq<Post>
    var currentPage: int
    var totalPages: int

    /** The page number never drops below the first page. */
    predicate Valid()
      reads this
    {
      1 <= currentPage
    }

    /** The page number lies within [1, totalPages]. */
    predicate InRange()
      reads this
    {
      1 <= currentPage <= totalPages
    }

    /** Initial state: no posts, page 1 of 1. */
    constructor ()
      ensures Valid() && InRange()
      ensures posts == [] && currentPage == 1 && totalPages == 1
    {
      posts := [];
      currentPage := 1;
      totalPages := 1;
    }

    /** The fetch effect's state update once the GET request for the current
        page has an outcome. On success the held list becomes the returned
        page and the page count the ceiling of the reported total over ten, so
        that the reported total fits in that many pages; on failure nothing
        changes. */
    method FetchCompleted(response: FetchResult)
      requires Valid()
      modifies this
      ensures Valid()
      ensures response.Fetched? ==> posts == response.page
      ensures response.Fetched? ==> totalPages == PageCount(response.totalCount, PostsPerPage)
      ensures response.Fetched? ==> response.totalCount <= PostsPerPage * totalPages
      ensures response.Fetched? && response.totalCount >= 1 ==>
        totalPages >= 1 && PostsPerPage * (totalPages - 1) < response.totalCount
      ensures response.FetchFailed? ==> posts == old(posts) && totalPages == old(totalPages)
      ensures currentPage == old(currentPage)
    {
      match response
      case Fetched(page, totalCount) =>
        posts := page;
        totalPages := PageCount(totalCount, PostsPerPage);
        if totalCount >= 1 {
          PageCountBounds(totalCount, PostsPerPage);
        }
      case FetchFailed =>
    }

    /** Next: one page further when a later page exists, otherwise nothing. */
    method HandleNextPage()
      requires Valid()
      modifies this
      ensures Valid()
      ensures currentPage == NextPage(old(currentPage), totalPages)
      ensures old(currentPage) < totalPages ==> currentPage == old(currentPage) + 1
      ensures old(currentPage) >= totalPages ==> currentPage == old(currentPage)
      ensures old(InRange()) ==> InRange()
      ensures posts == old(posts) && totalPages == old(totalPages)
    {
      if currentPage < totalPages {
        currentPage := currentPage + 1;
      }
    }

    /** Previous: one page back unless on the first page, otherwise nothing. */
    method HandlePreviousPage()
      requires Valid()
      modifies this
      ensures Valid()
      ensures currentPage == PreviousPage(old(currentPage))
      ensures old(currentPage) > 1 ==> currentPage == old(currentPage) - 1
      ensures old(currentPage) <= 1 ==> currentPage == old(currentPage)
      ensures old(InRange()) ==> InRange()
      ensures posts == old(posts) && totalPages == old(totalPages)
    {
      if currentPage > 1 {
        currentPage := currentPage - 1;
      }
    }
  }
}
