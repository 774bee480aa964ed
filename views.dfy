/** The request handlers of the posts application over an in-memory store.
    Handlers that write to the database are methods of `Store`; listing and
    detail pages are functions that read it. The current user is an
    `Option<Username>`: `None` is an anonymous visitor. */
module Views {
  import opened Basics
  import opened Paging
  import opened Records
  import opened Follows
  import opened Queries

  /** The named routes a handler can redirect to. */
  datatype Url =
    | IndexUrl
    | GroupListUrl(slug: Slug)
    | ProfileUrl(username: Username)
    | PostDetailUrl(postId: nat)
    | PostCreateUrl
    | PostEditUrl(postId: nat)
    | AddCommentUrl(postId: nat)
    | FollowIndexUrl
    | ProfileFollowUrl(username: Username)
    | ProfileUnfollowUrl(username: Username)

  /** What a handler answers: a rendered page with its context, a redirect, the
      login redirect carrying the original route as `next`, a 404, or an
      unhandled exception. */
  datatype Response<C> =
    | Render(context: C)
    | Redirect(to: Url)
    | LoginRedirect(next: Url)
    | NotFound
    | ServerError

  /** A request to a form page: a GET, or a POST carrying the submitted fields. */
  datatype Request<F> = Get | Submit(data: F)

  datatype GroupContext = GroupContext(group: Group, page: seq<Post>)
  datatype ProfileContext = ProfileContext(author: Username, postCount: nat, page: seq<Post>, following: bool)
  datatype DetailContext = DetailContext(post: Post, postCount: nat, comments: seq<Comment>)
  datatype FeedContext = FeedContext(page: seq<Post>)

  /** The post form page: a blank or re-displayed create form, or the edit form of a post. */
  datatype FormContext = CreateForm(submitted: Option<PostFormData>) | EditForm(post: Post)

  /** A post form validates when its text is non-empty and its group, if any, exists. */
  predicate ValidPostForm(data: PostFormData, groups: map<Slug, Group>)
  {
    data.text != [] && (data.group.Some? ==> data.group.value in groups)
  }

  /** A comment form validates when its text is non-empty. */
  predicate ValidCommentForm(text: string)
  {
    text != []
  }

  class Store {
    var users: set<Username>
    var groups: map<Slug, Group>
    /** All posts, newest first. */
    var posts: seq<Post>
    var follows: seq<Follow>
    var comments: seq<Comment>
    /** The id the next created post receives. */
    var nextId: nat

    /** Post ids are distinct and below the counter; every author, follower
        and commenter is a registered user; each group is filed under its own
        slug and every post's group exists; no follow edge is stored twice. */
    ghost predicate Valid()
      reads this
    {
      DistinctIds(posts) &&
      (forall p :: p in posts ==> p.id < nextId && p.author in users) &&
      (forall f :: f in follows ==> f.user in users && f.author in users) &&
      (forall c :: c in comments ==> c.author in users) &&
      (forall s :: s in groups ==> groups[s].slug == s) &&
      (forall p :: p in posts && p.group.Some? ==> p.group.value in groups) &&
      UniqueEdges(follows)
    }

    /** A store with the given registered users and groups and no posts, follows or comments. */
    constructor (users: set<Username>, groups: map<Slug, Group>)
      requires forall s :: s in groups ==> groups[s].slug == s
      ensures Valid()
      ensures this.users == users && this.groups == groups
      ensures posts == [] && follows == [] && comments == [] && nextId == 1
    {
      this.users := users;
      this.groups := groups;
      posts := [];
      follows := [];
      comments := [];
      nextId := 1;
    }

    // ----- read-only handlers -----

    /** `index`: the requested page of all posts. */
    function Index(param: PageParam): (r: Response<FeedContext>)
      reads this
      ensures r.Render?
      ensures |r.context.page| <= PageSize
      ensures r.context.page == Page(posts, param)
      ensures forall i :: 0 <= i < |r.context.page| ==> r.context.page[i] in posts
      ensures param == NoPage ==> r.context.page == posts[..Min(|posts|, PageSize)]
    {
      FirstPage(posts);
      Render(FeedContext(Page(posts, param)))
    }

    /** `group_posts`: 404 for an unknown slug, otherwise the group and a page of its posts. */
    function GroupPosts(slug: Slug, param: PageParam): (r: Response<GroupContext>)
      reads this
      ensures slug !in groups <==> r == NotFound
      ensures slug in groups ==>
        r.Render? && r.context.group == groups[slug] &&
        r.context.page == Page(PostsInGroup(posts, slug), param)
      ensures r.Render? ==> forall i :: 0 <= i < |r.context.page| ==>
        r.context.page[i] in posts && r.context.page[i].group == Some(slug)
    {
      if slug !in groups then NotFound
      else Render(GroupContext(groups[slug], Page(PostsInGroup(posts, slug), param)))
    }

    /** `profile`: 404 for an unknown user, otherwise a page of the author's posts,
        their number, and whether the current user follows the author. */
    function Profile(viewer: Option<Username>, username: Username, param: PageParam): (r: Response<ProfileContext>)
      reads this
      ensures username !in users <==> r == NotFound
      ensures username in users ==>
        r.Render? && r.context.author == username &&
        r.context.page == Page(PostsBy(posts, username), param) &&
        r.context.postCount == |PostsBy(posts, username)|
      ensures r.Render? ==> (r.context.following <==> viewer.Some? && Follow(viewer.value, username) in follows)
      ensures r.Render? ==> forall i :: 0 <= i < |r.context.page| ==>
        r.context.page[i] in posts && r.context.page[i].author == username
    {
      if username !in users then NotFound
      else
        var postList := PostsBy(posts, username);
        var following := viewer.Some? && Follow(viewer.value, username) in follows;
        Render(ProfileContext(username, |postList|, Page(postList, param), following))
    }

    /** `post_detail`: 404 for an unknown id, otherwise the post, its author's
        number of posts and the post's comments. */
    function PostDetail(postId: nat): (r: Response<DetailContext>)
      reads this
      ensures (forall p :: p in posts ==> p.id != postId) <==> r == NotFound
      ensures r.NotFound? || r.Render?
      ensures r.Render? ==>
        r.context.post in posts && r.context.post.id == postId &&
        r.context.postCount == |PostsBy(posts, r.context.post.author)| &&
        r.context.comments == CommentsOf(comments, postId)
    {
      match FindPost(posts, postId)
      case None => NotFound
      case Some(i) =>
        var post := posts[i];
        Render(DetailContext(post, |PostsBy(posts, post.author)|, CommentsOf(comments, postId)))
    }

    /** `follow_index` (login required): a page of the posts of the authors the current user follows. */
    function FollowIndex(viewer: Option<Username>, param: PageParam): (r: Response<FeedContext>)
      reads this
      ensures viewer.None? <==> r == LoginRedirect(FollowIndexUrl)
      ensures viewer.Some? ==> r.Render? && r.context.page == Page(FeedPosts(posts, follows, viewer.value), param)
      ensures r.Render? ==> forall i :: 0 <= i < |r.context.page| ==>
        r.context.page[i] in posts && Follow(viewer.value, r.context.page[i].author) in follows
    {
      if viewer.None? then LoginRedirect(FollowIndexUrl)
      else Render(FeedContext(Page(FeedPosts(posts, follows, viewer.value), param)))
    }

    // ----- handlers that change the store -----

    /** `post_create` (login required): a valid POST saves a new post by the current
        user and redirects to their profile; a GET or an invalid POST shows the form. */
    method PostCreate(viewer: Option<Username>, request: Request<PostFormData>) returns (resp: Response<FormContext>)
      requires Valid()
      requires viewer.Some? ==> viewer.value in users
      modifies this
      ensures Valid()
      ensures users == old(users) && groups == old(groups)
      ensures follows == old(follows) && comments == old(comments)
      ensures viewer.None? ==> resp == LoginRedirect(PostCreateUrl)
      ensures viewer.Some? && request.Get? ==> resp == Render(CreateForm(None))
      ensures viewer.Some? && request.Submit? && !ValidPostForm(request.data, groups) ==>
        resp == Render(CreateForm(Some(request.data)))
      ensures viewer.Some? && request.Submit? && ValidPostForm(request.data, groups) ==>
        resp == Redirect(ProfileUrl(viewer.value)) &&
        posts == [Post(old(nextId), viewer.value, request.data.text, request.data.group)] + old(posts) &&
        nextId == old(nextId) + 1
      ensures !(viewer.Some? && request.Submit? && ValidPostForm(request.data, groups)) ==>
        posts == old(posts) && nextId == old(nextId)
    {
      if viewer.None? {
        return LoginRedirect(PostCreateUrl);
      }
      match request
      case Get =>
        resp := Render(CreateForm(None));
      case Submit(data) =>
        if ValidPostForm(data, groups) {
          var post := Post(nextId, viewer.value, data.text, data.group);
          posts := [post] + posts;
          nextId := nextId + 1;
          resp := Redirect(ProfileUrl(viewer.value));
        } else {
          resp := Render(CreateForm(Some(data)));
        }
    }

    /** `post_edit` (login required). A non-author is redirected to the post.
        The author gets the form on GET; on POST the form's `is_valid` method is
        tested without being called, so the form is always saved: valid fields
        overwrite the post's text and group, invalid ones make the save raise. */
    method PostEdit(viewer: Option<Username>, postId: nat, request: Request<PostFormData>) returns (resp: Response<FormContext>)
      requires Valid()
      requires viewer.Some? ==> viewer.value in users
      modifies this
      ensures Valid()
      ensures users == old(users) && groups == old(groups) && nextId == old(nextId)
      ensures follows == old(follows) && comments == old(comments)
      ensures |posts| == |old(posts)|
      ensures viewer.None? ==> resp == LoginRedirect(PostEditUrl(postId)) && posts == old(posts)
      ensures viewer.Some? && FindPost(old(posts), postId).None? ==> resp == NotFound && posts == old(posts)
      ensures viewer.Some? && FindPost(old(posts), postId).Some? ==>
        var i := FindPost(old(posts), postId).value;
        var post := old(posts)[i];
        if post.author != viewer.value then
          resp == Redirect(PostDetailUrl(postId)) && posts == old(posts)
        else if request.Get? then
          resp == Render(EditForm(post)) && posts == old(posts)
        else if ValidPostForm(request.data, groups) then
          resp == Redirect(PostDetailUrl(postId)) &&
          posts == old(posts)[i := post.(text := request.data.text, group := request.data.group)]
        else
          resp == ServerError && posts == old(posts)
    {
      if viewer.None? {
        return LoginRedirect(PostEditUrl(postId));
      }
      var found := FindPost(posts, postId);
      if found.None? {
        return NotFound;
      }
      var i := found.value;
      var post := posts[i];
      if post.author != viewer.value {
        return Redirect(PostDetailUrl(postId));
      }
      match request
      case Get =>
        resp := Render(EditForm(post));
      case Submit(data) =>
        if ValidPostForm(data, groups) {
          posts := posts[i := post.(text := data.text, group := data.group)];
          resp := Redirect(PostDetailUrl(postId));
        } else {
          resp := ServerError;
        }
    }

    /** `add_comment` (login required): 404 for an unknown post; a valid comment is
        stored against the post and the current user; always redirects to the post. */
    method AddComment(viewer: Option<Username>, postId: nat, request: Request<string>) returns (resp: Response<()>)
      requires Valid()
      requires viewer.Some? ==> viewer.value in users
      modifies this
      ensures Valid()
      ensures users == old(users) && groups == old(groups) && nextId == old(nextId)
      ensures posts == old(posts) && follows == old(follows)
      ensures viewer.None? ==> resp == LoginRedirect(AddCommentUrl(postId)) && comments == old(comments)
      ensures viewer.Some? && FindPost(posts, postId).None? ==> resp == NotFound && comments == old(comments)
      ensures viewer.Some? && FindPost(posts, postId).Some? ==>
        resp == Redirect(PostDetailUrl(postId)) &&
        comments == if request.Submit? && ValidCommentForm(request.data)
                    then old(comments) + [Comment(postId, viewer.value, request.data)]
                    else old(comments)
    {
      if viewer.None? {
        return LoginRedirect(AddCommentUrl(postId));
      }
      if FindPost(posts, postId).None? {
        return NotFound;
      }
      if request.Submit? && ValidCommentForm(request.data) {
        comments := comments + [Comment(postId, viewer.value, request.data)];
      }
      resp := Redirect(PostDetailUrl(postId));
    }

    /** `profile_follow` (login required): 404 for an unknown author; a self-follow or an
        existing edge changes nothing; redirects to the current user's own profile. */
    method ProfileFollow(viewer: Option<Username>, username: Username) returns (resp: Response<()>)
      requires Valid()
      requires viewer.Some? ==> viewer.value in users
      modifies this
      ensures Valid()
      ensures users == old(users) && groups == old(groups) && nextId == old(nextId)
      ensures posts == old(posts) && comments == old(comments)
      ensures viewer.None? ==> resp == LoginRedirect(ProfileFollowUrl(username)) && follows == old(follows)
      ensures viewer.Some? && username !in users ==> resp == NotFound && follows == old(follows)
      ensures viewer.Some? && username in users ==>
        resp == Redirect(ProfileUrl(viewer.value)) &&
        follows == AfterFollow(old(follows), viewer.value, username)
    {
      if viewer.None? {
        return LoginRedirect(ProfileFollowUrl(username));
      }
      if username !in users {
        return NotFound;
      }
      UniqueEdgesPreserved(follows, viewer.value, username);
      follows := AfterFollow(follows, viewer.value, username);
      resp := Redirect(ProfileUrl(viewer.value));
    }

    /** `profile_unfollow` (login required): deletes every edge from the current user to
        `username` (looked up by name only, so an unknown name is no error) and
        redirects to the current user's own profile. */
    method ProfileUnfollow(viewer: Option<Username>, username: Username) returns (resp: Response<()>)
      requires Valid()
      requires viewer.Some? ==> viewer.value in users
      modifies this
      ensures Valid()
      ensures users == old(users) && groups == old(groups) && nextId == old(nextId)
      ensures posts == old(posts) && comments == old(comments)
      ensures viewer.None? ==> resp == LoginRedirect(ProfileUnfollowUrl(username)) && follows == old(follows)
      ensures viewer.Some? ==>
        resp == Redirect(ProfileUrl(viewer.value)) &&
        follows == AfterUnfollow(old(follows), viewer.value, username)
    {
      if viewer.None? {
        return LoginRedirect(ProfileUnfollowUrl(username));
      }
      UniqueEdgesPreserved(follows, viewer.value, username);
      follows := AfterUnfollow(follows, viewer.value, username);
      resp := Redirect(ProfileUrl(viewer.value));
    }
  }
}
