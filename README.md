# Yatube posts: request handlers as a verified state machine

Yatube is a small blogging site: users write posts, optionally tagged with a
group, comment on posts and follow other authors to get a personal feed.
Everything except a handful of rules in the posts application's views is
delegated to the web framework. This project models those rules over an
abstract in-memory store and proves the properties the application's tests
check.

- `basics.dfy` (`Basics`): `Option`, `Min`, and `Filter`, an order-preserving
  filter over sequences — the shape of every ORM `.filter(...)` query here —
  proved to keep exactly the matching elements with their multiplicities, as a
  subsequence of its input.
- `paging.dfy` (`Paging`): the pagination helper. The page size is the
  constant 10. `Page` serves the page named by the `page` query parameter.
  `Pages` cuts a list into consecutive blocks and is proved to cover the list
  exactly, with every block but the last full and the last one holding the
  remainder, `NumPages` blocks in all.
- `records.dfy` (`Records`): posts, groups, comments, follow edges and the
  submitted post form. Users are identified by username and groups by slug.
- `follows.dfy` (`Follows`): the follow table as a sequence of edges (a table,
  so duplicates are representable) and its two transitions, follow and unfollow.
- `queries.dfy` (`Queries`): the queries the listing views run (by author, by
  group, the follow feed, a post's comments, lookup of a post by id), with
  lemmas relating them to the follow transitions and to post creation.
- `views.dfy` (`Views`): class `Store` with the tables as fields. The five
  handlers that write (`post_create`, `post_edit`, `add_comment`,
  `profile_follow`, `profile_unfollow`) are methods that update the fields. The
  five read-only handlers (`index`, `group_posts`, `profile`, `post_detail`,
  `follow_index`) are functions that read the store. Every handler returns a
  `Response`: a rendered context, a redirect to a named route, the login
  redirect carrying the original route as `next`, a 404, or a server error.
  Handlers that never render (`add_comment` and the follow handlers) return a
  `Response<()>`.
- `scenarios.dfy` (`Scenarios`): request sequences taken from the
  application's tests, replayed against the store, with the tests' checks as
  assertions.

Modelling choices:

- An anonymous visitor is `None`. The `login_required` guard is the first test
  in every guarded handler. It returns `LoginRedirect(<route of the handler>)`
  and changes nothing.
- `get_object_or_404` is a lookup that can fail and then yields `NotFound`.
  `profile_unfollow` does no such lookup: it deletes by username. So an unknown
  name there is not an error.
- The posts' newest-first order comes from the model's metadata, which is not
  part of this model. The store's `posts` sequence is taken to be in that
  order. A created post is put at the front and gets the next id from a
  counter. Each listing is proved to keep the store's order.
- Comments are appended. A post's comments are read in table order, oldest first.
- `login_required` lets through only registered users, so every mutating
  handler requires that a logged-in viewer is in `users`. The store invariant
  `Valid` keeps every post author, both ends of every follow edge and every
  commenter registered. It also keeps each group filed under its own slug,
  every post's group existing, and the follow table free of duplicate edges.
- The form checks behind `form.is_valid()` are `ValidPostForm` (non-empty text,
  and the group, if given, exists) and `ValidCommentForm` (non-empty text).
- `post_edit` checks `form.is_valid` without calling it. A bound method is
  always truthy, so an author's POST always reaches `form.save()`. With valid
  fields the save overwrites the post's text and group. With invalid fields,
  the framework's `ModelForm.save` raises instead of saving. The model gives
  `ServerError` and leaves the store unchanged. The form re-display at the end
  of the handler is therefore reached only by the author's GET.
- Both follow handlers redirect to the current user's own profile, not to the
  author's profile.
- `Paginator.get_page` is the framework's. The model follows its documented
  policy: a missing or non-numeric `page` gives page 1, and a number outside
  `1..NumPages` gives the last page. An empty list has one empty page. A
  `page` string that does not parse as an integer, such as `"2.0"`, counts as
  `NotANumber`.

Where the documented behaviour and the code differ, the model follows the code:
`profile_unfollow` deletes every matching edge, not exactly one, and an
author's invalid edit is not re-displayed with errors (see above).

## Model

| member | source | states |
|---|---|---|
| `Paging.NumPages` | yatube/posts/utils.py:3-7 | the page count of N items is ceil(N/10), and 1 for an empty list |
| `Paging.PageNumber` | yatube/posts/utils.py:8-9 | the served page number is always a valid page: 1 without a numeric parameter, the requested page when it exists, else the last page |
| `Paging.PageAt` | yatube/posts/utils.py:7-9 | page k holds min(10, N - 10(k-1)) items: the consecutive run of the list starting at index 10(k-1) |
| `Paging.Page` | yatube/posts/utils.py:7-9 | a served page has at most 10 items, all drawn from the list; an empty list gives an empty page whatever the parameter |
| `Paging.FirstPage` | yatube/posts/utils.py:8-9 | without a `page` parameter the page is the first min(N, 10) items, starting with the list's first item |
| `Paging.SecondPage` | yatube/posts/utils.py:7-9 | for 10 < N <= 20, page 2 is exactly the items after the first ten, N - 10 of them |
| `Paging.PageIsSlice` | yatube/posts/utils.py:7-9 | every served page is a contiguous, order-preserving slice of the list starting on a page boundary |
| `Paging.Pages` | yatube/posts/utils.py:7 | cutting the list into pages gives exactly NumPages(N) pages |
| `Paging.PagesCover` | yatube/posts/utils.py:7 | reading all pages in order gives back the list: nothing lost, repeated or reordered |
| `Paging.PagesSizes` | yatube/posts/utils.py:7 | every page but the last holds 10 items; the last holds the remainder |
| `Paging.PageAtIsBlock` | yatube/posts/utils.py:7-9 | the page served for number k is the k-th block of the partition |
| `Follows.AfterFollow` | yatube/posts/views.py:118-121 | a self-follow or an existing edge leaves the table unchanged; otherwise exactly one (user, author) edge is added; other pairs' counts are untouched and existing edges are kept |
| `Follows.AfterUnfollow` | yatube/posts/views.py:127-128 | no (user, author) edge remains, every other pair keeps its count, and the table keeps its order |
| `Follows.FollowTwice` | yatube/posts/views.py:118-121 | following an author twice from no edge leaves exactly one edge, and the second call is a no-op |
| `Follows.FollowIdempotent` | yatube/posts/views.py:119-121 | following is idempotent |
| `Follows.UnfollowAbsent` | yatube/posts/views.py:127-128 | unfollowing without an edge changes nothing |
| `Follows.UnfollowSize` | yatube/posts/views.py:127-128 | unfollowing shrinks the table by exactly the number of matching edges |
| `Follows.UniqueEdgesPreserved` | yatube/posts/views.py:118-128 | follow and unfollow keep the table free of duplicate edges |
| `Queries.PostsBy` | yatube/posts/views.py:32 | an author's posts are exactly the store's posts by that author, in store order |
| `Queries.PostsInGroup` | yatube/posts/views.py:21 | a group's posts are exactly the store's posts of that group, in store order |
| `Queries.FollowedAuthors` | yatube/posts/views.py:105 | an author is in the followed set iff a (user, author) edge exists |
| `Queries.FeedPosts` | yatube/posts/views.py:105-106 | the feed is exactly the posts whose author the user follows, in store order |
| `Queries.CommentsOf` | yatube/posts/views.py:52 | a post's comments are exactly the comments bound to it, in table order |
| `Queries.FindPost` | yatube/posts/views.py:78 | the lookup finds the first post with the id, or fails iff no post has it |
| `Queries.FindPostUnique` | yatube/posts/views.py:78 | with distinct ids the lookup finds the only post with that id |
| `Queries.FeedEmptyWithoutFollows` | yatube/posts/views.py:105-106 | a user who follows no one has an empty feed |
| `Queries.FeedAfterFirstFollow` | yatube/posts/views.py:105-106 | when the user follows no one yet, following an author (not themselves) makes the feed exactly that author's post list, in store order |
| `Queries.FeedAfterFollow` | yatube/posts/views.py:105-106 | following an author adds exactly that author's posts to the feed (none for a self-follow) |
| `Queries.FeedAfterUnfollow` | yatube/posts/views.py:105-106 | unfollowing an author removes exactly that author's posts from the feed |
| `Queries.NewPostFirst` | yatube/posts/views.py:67-69 | a new post at the front of the store comes first in its author's list and in its group's list |
| `Queries.CommentsAfterAppend` | yatube/posts/views.py:96-99 | a stored comment ends its post's comment list; other posts' lists are unchanged |
| `Views.Store.Index` | yatube/posts/views.py:9-16 | the index page is the paginator's page of all posts: at most 10, all from the store, the first min(N, 10) without a page parameter |
| `Views.Store.GroupPosts` | yatube/posts/views.py:19-27 | 404 iff the slug is unknown; otherwise the group and a page of its posts, each in the store and tagged with that group |
| `Views.Store.Profile` | yatube/posts/views.py:30-45 | 404 iff the user is unknown; otherwise a page of that author's posts only, `post_count` equal to their number, and `following` true iff the current user is logged in and has an edge to the author |
| `Views.Store.PostDetail` | yatube/posts/views.py:48-59 | 404 iff no post has the id; otherwise a rendered page with that post, its author's post count and exactly its comments |
| `Views.Store.FollowIndex` | yatube/posts/views.py:103-112 | a guest goes to login; a user gets a page of the feed, every post in it by a followed author |
| `Views.Store.PostCreate` | yatube/posts/views.py:62-73 | a guest, a GET or an invalid form changes nothing; a valid POST (non-empty text, existing or no group) adds exactly one post with the current user as author and the submitted text and group, and redirects to that user's profile |
| `Views.Store.PostEdit` | yatube/posts/views.py:76-88 | guest: login redirect; unknown id: 404; non-author: redirect to the post, unchanged; author GET: the edit form; author POST: valid fields overwrite that post's text and group only and redirect to it, invalid fields fail the save; the post count never changes |
| `Views.Store.AddComment` | yatube/posts/views.py:91-100 | guest: login redirect, nothing stored; unknown post: 404; otherwise a valid comment is appended, bound to the post and the current user, and the call redirects to the post |
| `Views.Store.ProfileFollow` | yatube/posts/views.py:115-122 | guest: login redirect; unknown author: 404; otherwise the table becomes `AfterFollow` of the old one and the call redirects to the current user's profile; nothing else changes |
| `Views.Store.ProfileUnfollow` | yatube/posts/views.py:125-129 | guest: login redirect; otherwise the table becomes `AfterUnfollow` of the old one and the call redirects to the current user's profile; nothing else changes |

## Left out

- Template rendering and context values other than the ones named above (the `index`, `follow` and `is_edit` flags, the comment form on the detail page). HTTP status codes and redirect mechanics are reduced to the tagged `Response` value.
- Authentication, sessions and CSRF. The current user is an optional username. Sign-up, login and logout are left out, so the user and group registries are fixed when the store is made.
- Form validation beyond two rules: the text is non-empty, and a given group exists. The framework's stripping of surrounding whitespace from text fields is not modelled. The form classes are not part of this model.
- Image upload and media storage. A post carries no image field.
- A form POST whose body is empty. `request.POST or None` then makes the form unbound.
- The stale-page behaviour that the cache test observes. It re-reads an already built response object and involves no store behaviour.
- Creation timestamps and the ORM ordering defined in the models. The order of the `posts` sequence stands for newest-first.
- The ordering of comments. Comment's ordering is defined in the models, which are not part of this model, so comments are assumed to be stored and read in insertion order.
- Transactions and concurrent requests. Each handler runs as one atomic step.
- Deleting posts and comments, and cascades. No handler in the views deletes either.
