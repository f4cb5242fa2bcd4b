/** The post creation form: a draft of three text fields edited one field at
    a time, and a submit action whose outcome decides whether the server's
    post is put in front of the form's own list and the draft cleared. */
module CreatePost {
  import opened Blog

  /** The three inputs the form renders, by their `name` attribute. */
  datatype Field = Title | Body | UserID

  /** The form's draft; every field holds the raw input text. */
  datatype Draft = Draft(title: string, body: string, userID: string)
  {
    function Get(field: Field): string
    {
      match field
      case Title => title
      case Body => body
      case UserID => userID
    }

    /** The draft with one field replaced: that field reads back the new
        value and the other two are unchanged. */
    function With(field: Field, value: string): (d: Draft)
      ensures d.Get(field) == value
      ensures forall other :: other != field ==> d.Get(other) == Get(other)
    {
      match field
      case Title => this.(title := value)
      case Body => this.(body := value)
      case UserID => this.(userID := value)
    }
  }

  /** The draft the form starts with and returns to after a successful submit. */
  const EmptyDraft := Draft("", "", "")

  /** Edits of two different fields do not interfere, and writing back a
      field's own value changes nothing. */
  lemma EditsCommute(d: Draft, f: Field, g: Field, v: string, w: string)
    ensures f != g ==> d.With(f, v).With(g, w) == d.With(g, w).With(f, v)
    ensures d.With(f, d.Get(f)) == d
    ensures d.With(f, v).With(f, w) == d.With(f, w)
  {
  }

  /** A submit whose request is in flight: the request body, and the list
      that the request's continuation captured when Submit was pressed. */
  datatype PendingCreate = PendingCreate(request: Draft, postsAtSubmit: seq<Post>)

  class CreatePostForm {
    var posts: seq<Post>
    var newPost: Draft

    /** Initial state: an empty list and a draft of three empty strings. */
    constructor ()
      ensures posts == [] && newPost == EmptyDraft
      ensures newPost.title == "" && newPost.body == "" && newPost.userID == ""
    {
      posts := [];
      newPost := EmptyDraft;
    }

    /** The change handler of each input: exactly the named field takes the
        typed value. */
    method HandleInputChange(name: Field, value: string)
      modifies this
      ensures newPost == old(newPost).With(name, value)
      ensures newPost.Get(name) == value
      ensures forall other :: other != name ==> newPost.Get(other) == old(newPost).Get(other)
      ensures posts == old(posts)
    {
      newPost := newPost.With(name, value);
    }

    /** Pressing Submit starts the POST request. The request body is the
        draft as it is now, and the continuation that runs once the request
        settles has captured the list as it is now; nothing changes yet. */
    method HandleCreatePost() returns (pending: PendingCreate)
      ensures pending.request == newPost
      ensures pending.postsAtSubmit == posts
    {
      pending := PendingCreate(newPost, posts);
    }

    /** The continuation of a submit once its request settles. On success the
        server's post goes in front of the list captured at submit time and
        the draft is cleared, whatever was typed or created meanwhile; on
        failure nothing changes. */
    method HandleCreatePostSettled(pending: PendingCreate, response: CreateResult)
      modifies this
      ensures response.Created? ==> posts == [response.post] + pending.postsAtSubmit
      ensures response.Created? ==> newPost == EmptyDraft
      ensures response.Created? && pending.postsAtSubmit == old(posts) ==>
        posts[0] == response.post && posts[1..] == old(posts) && |posts| == |old(posts)| + 1
      ensures response.CreateFailed? ==> posts == old(posts) && newPost == old(newPost)
    {
      match response
      case Created(post) =>
        posts := [post] + pending.postsAtSubmit;
        newPost := EmptyDraft;
      case CreateFailed =>
    }
  }

  /** A submit that runs alone: the draft is the request body; on success the
      server's post is in front of the list, the rest of the list is the old
      list and the draft is empty; on failure the draft and the list are
      exactly as before. */
  method SubmitAlone(form: CreatePostForm, response: CreateResult) returns (request: Draft)
    modifies form
    ensures request == old(form.newPost)
    ensures response.Created? ==> form.posts == [response.post] + old(form.posts)
    ensures response.Created? ==> form.newPost == EmptyDraft
    ensures response.CreateFailed? ==> form.posts == old(form.posts) && form.newPost == old(form.newPost)
  {
    var pending := form.HandleCreatePost();
    request := pending.request;
    form.HandleCreatePostSettled(pending, response);
  }

  /** Two submits in flight at once, both succeeding: the second continuation
      builds on the list captured before the first one settled, so the first
      created post is lost from the list. */
  method OverlappingSubmits(first: Post, second: Post) returns (shown: seq<Post>)
    ensures shown == [second]
    ensures first != second ==> first !in shown
  {
    var form := new CreatePostForm();
    var one := form.HandleCreatePost();
    var two := form.HandleCreatePost();
    form.HandleCreatePostSettled(one, Created(first));
    form.HandleCreatePostSettled(two, Created(second));
    shown := form.posts;
  }

  /** Text typed while a submit is in flight is wiped when it succeeds. */
  method EditWhileSubmitting(title: string, created: Post) returns (draft: Draft)
    ensures draft == EmptyDraft
    ensures title != "" ==> draft.Get(Title) != title
  {
    var form := new CreatePostForm();
    var pending := form.HandleCreatePost();
    form.HandleInputChange(Title, title);
    form.HandleCreatePostSettled(pending, Created(created));
    draft := form.newPost;
  }
}
