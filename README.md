# Blog front end: pagination, title search and post creation

A Dafny model of the client-side state handling in a small React blog front end.
The front end reads posts from the public `/posts` endpoint of jsonplaceholder and shows them in pages.
One listing lets the user search post titles; a form beside it creates new posts.
The model covers the three stateful components:

- `SearchablePosts.Posts` (`payd-test/src/components/posts/Posts.tsx`): a listing with five posts per page.
  It holds the fetched page, the page numbers, the search query and the filtered list, and it splices in newly created posts.
- `PagedPosts.Posts` (`payd-test/src/components/Posts.tsx`): a listing with ten posts per page and no search.
- `CreatePost.CreatePostForm` (`payd-test/src/components/createPost.tsx`): a form draft with three fields, and a submit action.

Each React state hook becomes a field of a class.
Each event handler becomes a method.
Each effect becomes a method that the caller runs when the effect's dependencies change; in React the framework runs it.
The outcome of every HTTP request is a parameter of the method that handles it: `Blog.FetchResult` or `Blog.CreateResult`.
Pure logic sits in two modules of functions and lemmas:

- `Pagination`: the page count, one Next or Previous step, and runs of button presses.
- `Search`: ASCII lower-casing, substring containment and the title filter.

Observations the proofs make precise:

- Next and Previous preserve `1 <= currentPage <= totalPages` (`Pagination.RunKeepsPageValid`).
  A fetch can still break the upper bound.
  The page count is `ceil(total / size)`, which is 0 for a reported total of 0.
  A later fetch may also report fewer pages than the current page number.
  The code does not guard against either case, and the model keeps that behaviour.
  `Pagination.RunStaysInRange` states what does hold: the page never drops below 1, and never exceeds the larger of the starting page and `totalPages`.
- `handlePostCreated` puts the new post in front of the filtered list whether or not it matches the query.
  Assume the filtered list was the filter of the held list before the splice.
  It still is afterwards exactly when the new post matches the query (`Search.PrependKeepsFilterIffMatches`).
  The held list has also changed, so the search effect runs again and recomputes the filtered list.
- A submit's continuation captured the list as it was when Submit was pressed, and it clears the draft on success.
  Two overlapping successful submits therefore lose the first created post (`CreatePost.OverlappingSubmits`).
  Text typed while a submit is in flight is wiped (`CreatePost.EditWhileSubmitting`).
  The model splits a submit into the press (`HandleCreatePost`) and the settled request (`HandleCreatePostSettled`), so both effects show.
- The search effect filters only for a non-empty query and shows the held list otherwise.
  Every title contains the empty string, so both branches give the same list (`Search.SearchResult`, `Search.FilterEmptyQuery`).

## Model

| member | source | states |
|---|---|---|
| Pagination.PageCount | payd-test/src/components/posts/Posts.tsx:55-56 | the page count `p` for `n` posts of size `s` is the integer ceiling: `n <= s*p < n + s`, and `p == 0` exactly when `n == 0` (used with 5 here and with 10 at payd-test/src/components/Posts.tsx:32-33) |
| Pagination.PageCountBounds | payd-test/src/components/posts/Posts.tsx:55-56 | for a total `n >= 1`, the page count is at least 1 and `s*(p-1) < n <= s*p` |
| Pagination.NextPage | payd-test/src/components/posts/Posts.tsx:73-78 | the page moves forward by at most one; it moves by exactly one if and only if `currentPage < totalPages`; it stays within `[1, totalPages]` when it starts there |
| Pagination.PreviousPage | payd-test/src/components/posts/Posts.tsx:80-85 | the page moves back by at most one; it moves by exactly one if and only if `currentPage > 1`; it never drops below 1 |
| Pagination.NextPreviousInverse | payd-test/src/components/posts/Posts.tsx:73-85 | a Previous undoes a Next that moved, and a Next undoes a Previous that moved |
| Pagination.RunStaysInRange | payd-test/src/components/posts/Posts.tsx:73-85 | for any sequence of Next/Previous presses starting at page >= 1 (page 1 initially, lines 18-19), the page stays >= 1 and at most `max(start, totalPages)` |
| Pagination.RunKeepsPageValid | payd-test/src/components/Posts.tsx:42-52 | starting inside `[1, totalPages]` (page 1 of 1 initially, lines 18-19), any sequence of Next/Previous presses stays inside it |
| Search.LowerChar | payd-test/src/components/posts/Posts.tsx:35 | `toLowerCase` on one character, ASCII only: the result is never an upper-case letter; letters map to their lower-case partners; other characters are unchanged |
| Search.Lower | payd-test/src/components/posts/Posts.tsx:35 | lower-casing keeps the length, leaves no upper-case ASCII letter, and keeps every other character in place |
| Search.LowerIdempotent | payd-test/src/components/posts/Posts.tsx:35 | lower-casing twice equals lower-casing once |
| Search.IncludesIffOccurs | payd-test/src/components/posts/Posts.tsx:35 | `includes` holds exactly when the query occurs as a contiguous slice at some index of the title |
| Search.IncludesEmpty | payd-test/src/components/posts/Posts.tsx:33 | every string includes the empty string |
| Search.NotIncludesLonger | payd-test/src/components/posts/Posts.tsx:35 | a query longer than the title is never included |
| Search.Filter | payd-test/src/components/posts/Posts.tsx:34-36 | the filtered list is no longer than the held list; a post is in it if and only if it is held and its lower-cased title includes the lower-cased query |
| Search.FilterIsSubsequence | payd-test/src/components/posts/Posts.tsx:34-36 | the filtered list is an order-preserving subsequence of the held list |
| Search.FilterCounts | payd-test/src/components/posts/Posts.tsx:34-36 | a matching post occurs in the filtered list exactly as often as in the held list; a non-matching post does not occur at all |
| Search.FilterIdempotent | payd-test/src/components/posts/Posts.tsx:34-36 | filtering the filtered list again with the same query returns it unchanged |
| Search.FilterEmptyQuery | payd-test/src/components/posts/Posts.tsx:38-39 | with the empty query the filtered list is exactly the held list |
| Search.FilterIgnoresQueryCase | payd-test/src/components/posts/Posts.tsx:35 | filtering by the lower-cased query equals filtering by the query as typed |
| Search.FilterCons | payd-test/src/components/posts/Posts.tsx:34-36 | filtering a list with a post in front keeps that post in front exactly when it matches; the rest is filtered as before |
| Search.PrependKeepsFilterIffMatches | payd-test/src/components/posts/Posts.tsx:67-70 | prepending a post to the filtered list equals filtering the extended list if and only if the post matches the query |
| Search.SearchResult | payd-test/src/components/posts/Posts.tsx:32-41 | the effect's result is the held list for an empty query and, for every query, the filter of the held list |
| SearchExamples.ThreeByQuery | payd-test/src/components/posts/Posts.tsx:34-36 | filtering three posts keeps, in order, those among them that match |
| SearchExamples.QueryA | payd-test/src/components/posts/Posts.tsx:34-36 | over posts titled Alpha, Beta and Gamma, the query "a" keeps all three in order |
| SearchExamples.QueryAl | payd-test/src/components/posts/Posts.tsx:34-36 | over posts titled Alpha, Beta and Gamma, the query "Al" keeps only Alpha |
| SearchExamples.QueryZzz | payd-test/src/components/posts/Posts.tsx:34-36 | over posts titled Alpha, Beta and Gamma, the query "zzz" keeps none |
| SearchablePosts.Posts.constructor | payd-test/src/components/posts/Posts.tsx:17-22 | the listing starts with no posts, page 1 of 1, an empty query and an empty filtered list |
| SearchablePosts.Posts.OnSearchChange | payd-test/src/components/posts/Posts.tsx:26-29 | the search box's handler sets the query and changes nothing else |
| SearchablePosts.Posts.SearchEffect | payd-test/src/components/posts/Posts.tsx:32-41 | the search effect sets the filtered list to the filter of the held list, which is the held list itself for an empty query; nothing else changes |
| SearchablePosts.Posts.FetchCompleted | payd-test/src/components/posts/Posts.tsx:54-59 | a successful fetch replaces the held list with the page and sets `totalPages = ceil(n/5)`, so `5*(totalPages-1) < n <= 5*totalPages` for `n >= 1`; a failed fetch changes nothing |
| SearchablePosts.Posts.HandlePostCreated | payd-test/src/components/posts/Posts.tsx:67-70 | the new post goes to index 0 of both lists; the rest of each list is the old list, so each grows by one; a settled filtered list stays settled if and only if the post matches |
| SearchablePosts.Posts.HandleNextPage | payd-test/src/components/posts/Posts.tsx:73-78 | the page advances by one exactly when `currentPage < totalPages`, otherwise no state changes; `[1, totalPages]` is preserved |
| SearchablePosts.Posts.HandlePreviousPage | payd-test/src/components/posts/Posts.tsx:80-85 | the page goes back by one exactly when `currentPage > 1`, otherwise no state changes; `[1, totalPages]` is preserved |
| PagedPosts.Posts.constructor | payd-test/src/components/Posts.tsx:17-19 | the listing starts with no posts on page 1 of 1 |
| PagedPosts.Posts.FetchCompleted | payd-test/src/components/Posts.tsx:22-39 | a successful fetch replaces the held list with the page and sets `totalPages = ceil(n/10)`, so `n <= 10*totalPages`; a failed fetch leaves the list and `totalPages` unchanged |
| PagedPosts.Posts.HandleNextPage | payd-test/src/components/Posts.tsx:42-46 | the page advances by one only when `currentPage < totalPages`, otherwise nothing changes; `[1, totalPages]` is preserved |
| PagedPosts.Posts.HandlePreviousPage | payd-test/src/components/Posts.tsx:48-52 | the page goes back by one only when `currentPage > 1`, otherwise nothing changes; `[1, totalPages]` is preserved |
| CreatePost.Draft.With | payd-test/src/components/createPost.tsx:20 | replacing one field of the draft: that field reads back the new value and the other two are unchanged |
| CreatePost.EditsCommute | payd-test/src/components/createPost.tsx:18-21 | edits to two different fields commute; writing a field's own value back changes nothing; a second write to a field overrides the first |
| CreatePost.CreatePostForm.constructor | payd-test/src/components/createPost.tsx:15-16 | the form starts with an empty list and a draft whose title, body and userID are all the empty string |
| CreatePost.CreatePostForm.HandleInputChange | payd-test/src/components/createPost.tsx:18-21 | exactly the named field takes the typed value; the other two fields and the list are unchanged |
| CreatePost.CreatePostForm.HandleCreatePost | payd-test/src/components/createPost.tsx:23-25 | pressing Submit changes nothing yet; the pending request carries the current draft as its body and the list as the continuation captured it |
| CreatePost.CreatePostForm.HandleCreatePostSettled | payd-test/src/components/createPost.tsx:26-38 | on success the server's post goes in front of the list captured at submit time and all three draft fields become empty; with no other change in between, the rest of the list is the old list; on failure the draft and the list stay exactly as they were |
| CreatePost.SubmitAlone | payd-test/src/components/createPost.tsx:23-39 | a submit with nothing else in between: the draft is the request body; on success the server's post is prepended to the unchanged list and the draft is cleared; on failure nothing changes |
| CreatePost.OverlappingSubmits | payd-test/src/components/createPost.tsx:26 | two overlapping successful submits leave only the second created post in the list: the first is lost |
| CreatePost.EditWhileSubmitting | payd-test/src/components/createPost.tsx:27 | a title typed while a submit is in flight is wiped when the submit succeeds |

## Left out

- HTTP requests (GET and POST against the `/posts` endpoint) are external I/O. Their outcome is a method parameter. What the server returns, including how many posts a page holds, is not modelled.
- The `x-total-count` header is modelled as a natural number, and `Math.ceil` of a floating-point quotient as integer ceiling division. The two listings convert the header differently, and neither conversion is modelled. The searchable listing calls `parseInt`, which gives NaN for a missing or non-numeric header. The plain listing divides the raw header string, so JavaScript's `Number` conversion applies: an empty header gives 0 pages, and a value such as "12abc" gives NaN rather than 12.
- The `loading` flag, the one-second `setTimeout` before it clears, `window.scrollTo`, the success toast, `console.error` logging, `isHovered` and all rendering are UI side effects and are not modelled.
- React's scheduling is not modelled. That includes when effects run, `useCallback` memoisation and overlapping fetches. A stale response that arrives after a newer page change can overwrite state; that race is not modelled.
- Search.LowerChar: `toLowerCase` is modelled for ASCII letters only; the full Unicode case mapping is not captured.
- CreatePost.CreatePostForm.HandleInputChange: the input name is one of the three fields the form renders. JavaScript's computed-key spread would add an extra key for any other name, but no other input is wired to the handler.
- The `onPostCreated` prop that the searchable listing passes to its form is not part of the form shown in `createPost.tsx`, which takes no props. The callback is modelled on the listing side only, as `SearchablePosts.Posts.HandlePostCreated`.
- Posts carry a `UserId` that is either numeric or text. This covers both the `userId: number` of one listing and the `userID: number | string` of the other listing and of the form.
