/** Request sequences from the application's test suite, replayed against the
    store; each assertion is a fact the tests check. */
module Scenarios {
  import opened Basics
  import opened Paging
  import opened Records
  import opened Follows
  import opened Queries
  import opened Views

  /** Following the same author twice leaves one edge, and the profile shows it. */
  method FollowTwice()
  {
    var store := new Store({"NoName", "Other"}, map[]);
    var r1 := store.ProfileFollow(Some("NoName"), "Other");
    assert store.follows == [Follow("NoName", "Other")];
    var r2 := store.ProfileFollow(Some("NoName"), "Other");
    assert store.follows == [Follow("NoName", "Other")];
    assert r2 == Redirect(ProfileUrl("NoName"));
    assert store.Profile(Some("NoName"), "Other", NoPage).context.following;
    assert !store.Profile(None, "Other", NoPage).context.following;
  }

  /** Unfollowing drops only the current user's edge to the author. */
  method FollowThenUnfollow()
  {
    var store := new Store({"NoName", "Other"}, map[]);
    var r1 := store.ProfileFollow(Some("NoName"), "Other");
    var r2 := store.ProfileFollow(Some("Other"), "NoName");
    assert store.follows == [Follow("NoName", "Other"), Follow("Other", "NoName")];
    var r3 := store.ProfileUnfollow(Some("NoName"), "Other");
    assert store.follows == [Follow("Other", "NoName")] by {
      assert [Follow("NoName", "Other"), Follow("Other", "NoName")][1..] == [Follow("Other", "NoName")];
    }
  }

  /** A self-follow is skipped and a guest is sent to the login page. */
  method SelfFollowAndGuest()
  {
    var store := new Store({"NoName"}, map[]);
    var r1 := store.ProfileFollow(Some("NoName"), "NoName");
    assert store.follows == [];
    var r2 := store.ProfileFollow(None, "NoName");
    assert r2 == LoginRedirect(ProfileFollowUrl("NoName")) && store.follows == [];
    var r3 := store.ProfileFollow(Some("NoName"), "Nobody");
    assert r3 == NotFound;
  }

  /** Creating posts: empty text is refused, valid text adds one post by the
      current user that comes first on the index and the profile; a guest is
      redirected with the create route as `next`. */
  method CreatePosts()
  {
    var g := Group("test-slug", "test-text", "test_description");
    var store := new Store({"NoName"}, map["test-slug" := g]);
    var r1 := store.PostCreate(Some("NoName"), Submit(PostFormData("", Some("test-slug"))));
    assert store.posts == [] && r1.Render?;
    var r2 := store.PostCreate(None, Submit(PostFormData("not authorized", None)));
    assert store.posts == [] && r2 == LoginRedirect(PostCreateUrl);
    var r3 := store.PostCreate(Some("NoName"), Submit(PostFormData("New-test-text", Some("test-slug"))));
    assert r3 == Redirect(ProfileUrl("NoName"));
    assert |store.posts| == 1;
    var p := store.posts[0];
    assert p.author == "NoName" && p.text == "New-test-text" && p.group == Some("test-slug");
    assert store.Index(NoPage).context.page == [p];
    NewPostFirst([], p);
    assert PostsBy([], "NoName") == [];
    assert store.Profile(None, "NoName", NoPage).context.postCount == 1;
  }

  /** Editing: the author overwrites text and group, a non-author is redirected to the
      post, and an author's invalid POST reaches the save and fails. */
  method EditPost()
  {
    var g := Group("test-slug", "test-text", "test_description");
    var h := Group("new-group-slug", "new-group", "test_description");
    var store := new Store({"NoName", "Other"}, map["test-slug" := g, "new-group-slug" := h]);
    var r0 := store.PostCreate(Some("NoName"), Submit(PostFormData("test-post-text", Some("test-slug"))));
    var id := store.posts[0].id;
    var r1 := store.PostEdit(Some("Other"), id, Submit(PostFormData("hijack", None)));
    assert r1 == Redirect(PostDetailUrl(id));
    assert store.posts[0].text == "test-post-text";
    var r2 := store.PostEdit(Some("NoName"), id, Submit(PostFormData("New-text", Some("new-group-slug"))));
    assert r2 == Redirect(PostDetailUrl(id));
    assert |store.posts| == 1;
    assert store.posts[0].text == "New-text" && store.posts[0].group == Some("new-group-slug");
    var r3 := store.PostEdit(Some("NoName"), id, Submit(PostFormData("", None)));
    assert r3 == ServerError && store.posts[0].text == "New-text";
    var r4 := store.PostEdit(None, id, Get);
    assert r4 == LoginRedirect(PostEditUrl(id));
  }

  /** Commenting: a guest's comment is refused, a user's comment is stored against the post. */
  method CommentOnPost()
  {
    var store := new Store({"NoName"}, map[]);
    var r0 := store.PostCreate(Some("NoName"), Submit(PostFormData("test-post-text", None)));
    var id := store.posts[0].id;
    var r1 := store.AddComment(None, id, Submit("text_comment"));
    assert r1 == LoginRedirect(AddCommentUrl(id)) && store.comments == [];
    var r2 := store.AddComment(Some("NoName"), id, Submit("text_comment"));
    assert r2 == Redirect(PostDetailUrl(id));
    assert store.comments == [Comment(id, "NoName", "text_comment")];
    CommentsAfterAppend([], Comment(id, "NoName", "text_comment"), id);
    assert store.PostDetail(id).context.comments == [Comment(id, "NoName", "text_comment")];
  }

  /** Of two posts, only the second by `author`: the author's list is that post. */
  lemma OnlyLaterPostBy(first: Post, second: Post, author: Username)
    requires first.author != author && second.author == author
    ensures PostsBy([first, second], author) == [second]
  {
    var keep := (p: Post) => p.author == author;
    assert [first, second][1..] == [second];
    assert [second][1..] == [];
    assert Filter([second], keep) == [second] + Filter([], keep);
  }

  /** The feed is empty before any follow. */
  method FeedBeforeFollowing()
  {
    var store := new Store({"NoName", "Other"}, map[]);
    var r0 := store.PostCreate(Some("Other"), Submit(PostFormData("by other", None)));
    var feed := store.FollowIndex(Some("NoName"), NoPage);
    FeedEmptyWithoutFollows(store.posts, store.follows, "NoName");
    assert feed.context.page == [];
  }

  /** After a follow the feed holds the followed author's posts and not the user's own. */
  method FeedAfterFollowing()
  {
    var store := new Store({"NoName", "Other"}, map[]);
    var r0 := store.PostCreate(Some("Other"), Submit(PostFormData("by other", None)));
    var r1 := store.PostCreate(Some("NoName"), Submit(PostFormData("by me", None)));
    var other := store.posts[1];
    assert store.posts == [store.posts[0], other];
    var r2 := store.ProfileFollow(Some("NoName"), "Other");
    assert store.follows == [Follow("NoName", "Other")];
    FeedAfterFirstFollow(store.posts, [], "NoName", "Other");
    OnlyLaterPostBy(store.posts[0], other, "Other");
    assert store.FollowIndex(Some("NoName"), NoPage).context.page == [other];
  }
}
