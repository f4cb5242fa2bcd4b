/** The searchable, paginated post listing: it holds one fetched page,
    requested five posts at a time, the current and total page numbers, the
    search query and the list shown after searching, and splices in posts
    created by the form beside it.
    React's state hooks become the fields of a class; each effect becomes a
    method the caller runs when the effect's dependencies change. */
module SearchablePosts {
  import opened Blog
  import opened Pagination
  import opened Search

  /** Posts requested per page. */
  const PostsPerPage: nat := 5

  class Posts {
    var posts: seq<Post>
    var currentPage: int
    var totalPages: int
    var searchQuery: string
    var filteredPosts: seq<Post>

    /** The page number never drops below the first page. */
    predicate Valid()
      reads this
    {
      1 <= currentPage
    }

    /** The page number lies within [1, totalPages]. */
    predicate InRange()
      reads this
    {
      1 <= currentPage <= totalPages
    }

    /** The shown list is what the search effect computes from the held list
        and the query. */
    predicate Settled()
      reads this
    {
      filteredPosts == SearchResult(posts, searchQuery)
    }

    /** Initial state: no posts, page 1 of 1, empty query. */
    constructor ()
      ensures Valid() && InRange() && Settled()
      ensures posts == [] && filteredPosts == []
      ensures currentPage == 1 && totalPages == 1 && searchQuery == ""
    {
      posts := [];
      currentPage := 1;
      totalPages := 1;
      searchQuery := "";
      filteredPosts := [];
    }

    /** The search box's change handler records the typed query. */
    method OnSearchChange(value: string)
      requires Valid()
      modifies this
      ensures Valid()
      ensures searchQuery == value
      ensures posts == old(posts) && filteredPosts == old(filteredPosts)
      ensures currentPage == old(currentPage) && totalPages == old(totalPages)
    {
      searchQuery := value;
    }

    /** The search effect, run after the query or the held list changed: the
        shown list becomes the held posts whose lower-cased title contains the
        lower-cased query, in order, and the whole held list when the query is
        empty. */
    method SearchEffect()
      requires Valid()
      modifies this
      ensures Valid()
      ensures Settled()
      ensures filteredPosts == Filter(posts, searchQuery)
      ensures searchQuery == "" ==> filteredPosts == posts
      ensures posts == old(posts) && searchQuery == old(searchQuery)
      ensures currentPage == old(currentPage) && totalPages == old(totalPages)
    {
      if searchQuery != "" {
        filteredPosts := Filter(posts, searchQuery);
      } else {
        FilterEmptyQuery(posts);
        filteredPosts := posts;
      }
    }

    /** The fetch effect's state update once the GET request for the current
        page has an outcome. On success the held list becomes the returned
        page and the page count becomes the ceiling of the reported total over
        five; on failure nothing changes. */
    method FetchCompleted(response: FetchResult)
      requires Valid()
      modifies this
      ensures Valid()
      ensures response.Fetched? ==> posts == response.page
      ensures response.Fetched? ==> totalPages == PageCount(response.totalCount, PostsPerPage)
      ensures response.Fetched? && response.totalCount >= 1 ==>
        totalPages >= 1 && PostsPerPage * (totalPages - 1) < response.totalCount <= PostsPerPage * totalPages
      ensures response.FetchFailed? ==> posts == old(posts) && totalPages == old(totalPages)
      ensures currentPage == old(currentPage) && searchQuery == old(searchQuery)
      ensures filteredPosts == old(filteredPosts)
    {
      match response
      case Fetched(page, totalCount) =>
        posts := page;
        totalPages := PageCount(totalCount, PostsPerPage);
        if totalCount >= 1 {
          PageCountBounds(totalCount, PostsPerPage);
        }
      case FetchFailed =>
    }

    /** The callback handed to the creation form: the new post goes in front
        of both the held and the shown list. When the shown list was settled,
        it stays settled exactly when the new post matches the query; the
        search effect then re-runs because the held list changed. */
    method HandlePostCreated(newPost: Post)
      requires Valid()
      modifies this
      ensures Valid()
      ensures posts == [newPost] + old(posts)
      ensures filteredPosts == [newPost] + old(filteredPosts)
      ensures posts[0] == newPost && posts[1..] == old(posts) && |posts| == |old(posts)| + 1
      ensures filteredPosts[0] == newPost && filteredPosts[1..] == old(filteredPosts)
      ensures |filteredPosts| == |old(filteredPosts)| + 1
      ensures old(Settled()) ==> (Settled() <==> Matches(newPost, searchQuery))
      ensures currentPage == old(currentPage) && totalPages == old(totalPages)
      ensures searchQuery == old(searchQuery)
    {
      PrependKeepsFilterIffMatches(newPost, posts, searchQuery);
      posts := [newPost] + posts;
      filteredPosts := [newPost] + filteredPosts;
    }

    /** Next: one page further when a later page exists, otherwise nothing. */
    method HandleNextPage()
      requires Valid()
      modifies this
      ensures Valid()
      ensures currentPage == NextPage(old(currentPage), totalPages)
      ensures old(currentPage) < totalPages ==> currentPage == old(currentPage) + 1
      ensures old(currentPage) >= totalPages ==> currentPage == old(currentPage)
      ensures old(InRange()) ==> InRange()
      ensures posts == old(posts) && filteredPosts == old(filteredPosts)
      ensures totalPages == old(totalPages) && searchQuery == old(searchQuery)
    {
      if currentPage < totalPages {
        currentPage := currentPage + 1;
      }
    }

    /** Previous: one page back unless on the first page, otherwise nothing. */
    method HandlePreviousPage()
      requires Valid()
      modifies this
      ensures Valid()
      ensures currentPage == PreviousPage(old(currentPage))
      ensures old(currentPage) > 1 ==> currentPage == old(currentPage) - 1
      ensures old(currentPage) <= 1 ==> currentPage == old(currentPage)
      ensures old(InRange()) ==> InRange()
      ensures posts == old(posts) && filteredPosts == old(filteredPosts)
      ensures totalPages == old(totalPages) && searchQuery == old(searchQuery)
    {
      if currentPage > 1 {
        currentPage := currentPage - 1;
      }
    }
  }
}
