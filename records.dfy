/** The records the views read and write. Users are identified by their
    (unique) username and groups by their (unique) slug. */
module Records {
  import opened Basics

  type Username = string
  type Slug = string

  datatype Group = Group(slug: Slug, title: string, description: string)

  /** A post; `group` is the slug of its group, if it has one. */
  datatype Post = Post(id: nat, author: Username, text: string, group: Option<Slug>)

  datatype Comment = Comment(postId: nat, author: Username, text: string)

  /** A follow edge: `user` follows `author`. */
  datatype Follow = Follow(user: Username, author: Username)

  /** The fields a post form submits. */
  datatype PostFormData = PostFormData(text: string, group: Option<Slug>)

  /** No two posts share an id. */
  ghost predicate DistinctIds(posts: seq<Post>)
  {
    forall i, j :: 0 <= i < j < |posts| ==> posts[i].id != posts[j].id
  }
}
