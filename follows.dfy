/** The follow table and the two handlers that change it: following an
    author and unfollowing one. */
module Follows {
  import opened Basics
  import opened Records

  /** Number of copies of `f` in the table. */
  function Count(edges: seq<Follow>, f: Follow): nat
  {
    multiset(edges)[f]
  }

  /** At most one edge per (user, author) pair. */
  ghost predicate UniqueEdges(edges: seq<Follow>)
  {
    forall f :: multiset(edges)[f] <= 1
  }

  /** The table after `user` asks to follow `author`: a self-follow is skipped,
      an existing edge makes the call a no-op, otherwise one edge is created. */
  function AfterFollow(edges: seq<Follow>, user: Username, author: Username): (r: seq<Follow>)
    ensures user == author ==> r == edges
    ensures Follow(user, author) in edges ==> r == edges
    ensures user != author ==> Count(r, Follow(user, author)) == Count(edges, Follow(user, author)) + (if Follow(user, author) in edges then 0 else 1)
    ensures forall f :: f != Follow(user, author) ==> Count(r, f) == Count(edges, f)
    ensures edges <= r
  {
    if user != author && Follow(user, author) !in edges then edges + [Follow(user, author)]
    else edges
  }

  /** The table after `user` unfollows `author`: every matching edge is deleted. */
  function AfterUnfollow(edges: seq<Follow>, user: Username, author: Username): (r: seq<Follow>)
    ensures Follow(user, author) !in r
    ensures forall f :: f in r <==> f in edges && f != Follow(user, author)
    ensures forall f :: f != Follow(user, author) ==> Count(r, f) == Count(edges, f)
    ensures IsSubseq(r, edges)
  {
    Filter(edges, (f: Follow) => f != Follow(user, author))
  }

  /** Following the same author twice leaves exactly one edge when there was none. */
  lemma FollowTwice(edges: seq<Follow>, user: Username, author: Username)
    requires user != author && Follow(user, author) !in edges
    ensures var twice := AfterFollow(AfterFollow(edges, user, author), user, author);
      Count(twice, Follow(user, author)) == 1 &&
      twice == AfterFollow(edges, user, author) &&
      |twice| == |edges| + 1
  {
  }

  /** Following is idempotent. */
  lemma FollowIdempotent(edges: seq<Follow>, user: Username, author: Username)
    ensures AfterFollow(AfterFollow(edges, user, author), user, author) == AfterFollow(edges, user, author)
  {
  }

  /** Unfollowing an author one does not follow changes nothing. */
  lemma UnfollowAbsent(edges: seq<Follow>, user: Username, author: Username)
    requires Follow(user, author) !in edges
    ensures AfterUnfollow(edges, user, author) == edges
  {
    FilterKeepsAll(edges, (f: Follow) => f != Follow(user, author));
  }

  /** Unfollowing removes exactly the matching edges and no others. */
  lemma {:induction false} UnfollowSize(edges: seq<Follow>, user: Username, author: Username)
    ensures |AfterUnfollow(edges, user, author)| == |edges| - Count(edges, Follow(user, author))
    decreases |edges|
  {
    if edges != [] {
      UnfollowSize(edges[1..], user, author);
      assert edges == [edges[0]] + edges[1..];
    }
  }

  /** Both handlers keep the table free of duplicate edges. */
  lemma UniqueEdgesPreserved(edges: seq<Follow>, user: Username, author: Username)
    requires UniqueEdges(edges)
    ensures UniqueEdges(AfterFollow(edges, user, author))
    ensures UniqueEdges(AfterUnfollow(edges, user, author))
  {
    var after := AfterFollow(edges, user, author);
    forall f
      ensures multiset(after)[f] <= 1
    {
      assert Count(after, f) == multiset(after)[f];
    }
    var gone := AfterUnfollow(edges, user, author);
    forall f
      ensures multiset(gone)[f] <= 1
    {
      assert Count(gone, f) == multiset(gone)[f];
      if f == Follow(user, author) {
        assert f !in gone;
      }
    }
  }
}
