/** The queries the read-only views run over the tables, each an
    order-preserving filter of the newest-first post sequence. */
module Queries {
  import opened Basics
  import opened Records
  import opened Follows

  /** `author.posts.all()`: the posts written by `author`. */
  function PostsBy(posts: seq<Post>, author: Username): (r: seq<Post>)
    ensures forall p :: p in r <==> p in posts && p.author == author
    ensures IsSubseq(r, posts)
  {
    Filter(posts, (p: Post) => p.author == author)
  }

  /** `group.posts.all()`: the posts tagged with the group `slug`. */
  function PostsInGroup(posts: seq<Post>, slug: Slug): (r: seq<Post>)
    ensures forall p :: p in r <==> p in posts && p.group == Some(slug)
    ensures IsSubseq(r, posts)
  {
    Filter(posts, (p: Post) => p.group == Some(slug))
  }

  /** `user.follower.values_list('author')`: the authors `user` follows. */
  function FollowedAuthors(edges: seq<Follow>, user: Username): (r: set<Username>)
    ensures forall a :: a in r <==> Follow(user, a) in edges
  {
    set f | f in edges && f.user == user :: f.author
  }

  /** `Post.objects.filter(author__in=...)`: the posts of the authors `user` follows. */
  function FeedPosts(posts: seq<Post>, edges: seq<Follow>, user: Username): (r: seq<Post>)
    ensures forall p :: p in r <==> p in posts && Follow(user, p.author) in edges
    ensures IsSubseq(r, posts)
  {
    var followed := FollowedAuthors(edges, user);
    Filter(posts, (p: Post) => p.author in followed)
  }

  /** `post.comments.all()`: the comments on post `postId`. */
  function CommentsOf(comments: seq<Comment>, postId: nat): (r: seq<Comment>)
    ensures forall c :: c in r <==> c in comments && c.postId == postId
    ensures IsSubseq(r, comments)
  {
    Filter(comments, (c: Comment) => c.postId == postId)
  }

  /** `get_object_or_404(Post, id=postId)`: the position of the post with that id,
      or nothing when no post has it. */
  function FindPost(posts: seq<Post>, postId: nat): (r: Option<nat>)
    ensures r.Some? ==> r.value < |posts| && posts[r.value].id == postId
    ensures r.Some? ==> forall j :: 0 <= j < r.value ==> posts[j].id != postId
    ensures r.None? <==> forall p :: p in posts ==> p.id != postId
    decreases |posts|
  {
    if posts == [] then None
    else if posts[0].id == postId then Some(0)
    else
      match FindPost(posts[1..], postId)
      case None =>
        assert forall p :: p in posts ==> p == posts[0] || p in posts[1..];
        None
      case Some(i) => Some(i + 1)
  }

  /** With distinct ids, the post found is the only one carrying that id. */
  lemma FindPostUnique(posts: seq<Post>, postId: nat, j: nat)
    requires DistinctIds(posts)
    requires j < |posts| && posts[j].id == postId
    ensures FindPost(posts, postId) == Some(j)
  {
  }

  /** A user who follows no one has an empty feed. */
  lemma FeedEmptyWithoutFollows(posts: seq<Post>, edges: seq<Follow>, user: Username)
    requires forall f :: f in edges ==> f.user != user
    ensures FeedPosts(posts, edges, user) == []
  {
  }

  /** When `user` follows no one yet, following `author` makes the feed exactly
      `author`'s posts, in store order. */
  lemma FeedAfterFirstFollow(posts: seq<Post>, edges: seq<Follow>, user: Username, author: Username)
    requires user != author
    requires forall f :: f in edges ==> f.user != user
    ensures FeedPosts(posts, AfterFollow(edges, user, author), user) == PostsBy(posts, author)
  {
    var e := AfterFollow(edges, user, author);
    assert Follow(user, author) in e;
    var followed := FollowedAuthors(e, user);
    assert forall a :: a in followed <==> a == author;
    FilterCongruent(posts, (p: Post) => p.author in followed, (p: Post) => p.author == author);
  }

  /** Following an author adds that author's posts to the feed and nothing else. */
  lemma FeedAfterFollow(posts: seq<Post>, edges: seq<Follow>, user: Username, author: Username, p: Post)
    ensures p in FeedPosts(posts, AfterFollow(edges, user, author), user) <==>
      p in FeedPosts(posts, edges, user) || (p in posts && p.author == author && user != author)
  {
  }

  /** Unfollowing an author removes exactly that author's posts from the feed. */
  lemma FeedAfterUnfollow(posts: seq<Post>, edges: seq<Follow>, user: Username, author: Username, p: Post)
    ensures p in FeedPosts(posts, AfterUnfollow(edges, user, author), user) <==>
      p in FeedPosts(posts, edges, user) && p.author != author
  {
    var r := AfterUnfollow(edges, user, author);
    assert Follow(user, p.author) in r <==> Follow(user, p.author) in edges && p.author != author by {
      if Follow(user, p.author) != Follow(user, author) {
        assert Count(r, Follow(user, p.author)) == Count(edges, Follow(user, p.author));
      }
    }
  }

  /** A new post put at the front of the store comes first in every list that contains it. */
  lemma NewPostFirst(posts: seq<Post>, p: Post)
    ensures PostsBy([p] + posts, p.author) == [p] + PostsBy(posts, p.author)
    ensures p.group.Some? ==> PostsInGroup([p] + posts, p.group.value) == [p] + PostsInGroup(posts, p.group.value)
  {
    assert ([p] + posts)[1..] == posts;
  }

  /** A comment appended to the table ends its post's comment list and leaves other posts' lists as they were. */
  lemma CommentsAfterAppend(comments: seq<Comment>, c: Comment, postId: nat)
    ensures CommentsOf(comments + [c], postId) ==
      CommentsOf(comments, postId) + (if c.postId == postId then [c] else [])
  {
    FilterAppend(comments, [c], (x: Comment) => x.postId == postId);
    assert [c][1..] == [];
  }
}
