/** The post record the three list views hold, the filter and map they apply
    to it, and the projections each view makes of a fetched payload. */
module Posts {
  import opened Http
  import opened Text

  /** The three media kinds a post can carry. */
  datatype MediaKind = Image | Video | Document

  datatype Media = Media(kind: MediaKind, url: string)

  /** A post's author as the backend sends it: `extra` stands for every field
      other than `id` and `name`, which the views' projections drop. */
  datatype Author = Author(id: int, name: Option<string>, extra: map<string, string>)

  /** The post record. `category` and `status` stay strings, since the views
      compare them with strings ("Tech", "posted", "draft", …). */
  datatype Post = Post(
    id: int,
    title: string,
    body: Option<string>,
    category: string,
    status: string,
    createdAt: string,
    media: Option<Media>,
    author: Author,
    likes: int,
    comments: int)

  /** The `data` object of a post-list response: `posts` and `count` may be missing. */
  datatype PostsPage = PostsPage(posts: Option<seq<Post>>, count: Option<int>)

  /** The posts of a post-list response body, when there are any to read:
      `response.data.data.posts` throws when the body or its data is missing. */
  function PostsOf(body: Option<Envelope<PostsPage>>): (r: Option<seq<Post>>)
    ensures body.Some? && body.value.data.Some? ==> r == body.value.data.value.posts
    ensures !(body.Some? && body.value.data.Some?) ==> r.None?
  {
    match DataOf(body)
    case Some(page) => page.posts
    case None => None
  }

  /** `a` is `b` with some elements left out and the rest in the same order. */
  ghost predicate IsSubsequence<T>(a: seq<T>, b: seq<T>)
    decreases |b|
  {
    if a == [] then true
    else if b == [] then false
    else (a[0] == b[0] && IsSubsequence(a[1..], b[1..])) || IsSubsequence(a, b[1..])
  }

  /** `s.filter(f)`. */
  function Keep<T(!new)>(s: seq<T>, f: T -> bool): (r: seq<T>)
    ensures |r| <= |s|
    ensures forall x :: x in r <==> x in s && f(x)
    ensures forall x :: multiset(r)[x] == if f(x) then multiset(s)[x] else 0
    ensures IsSubsequence(r, s)
  {
    if s == [] then []
    else if f(s[0]) then
      assert s == [s[0]] + s[1..];
      var r := [s[0]] + Keep(s[1..], f);
      assert r[1..] == Keep(s[1..], f);
      r
    else
      assert s == [s[0]] + s[1..];
      var r := Keep(s[1..], f);
      assert r == [] || IsSubsequence(r, s[1..]);
      r
  }

  /** A filter whose test passes everything keeps everything. */
  lemma {:induction false} KeepAll<T(!new)>(s: seq<T>, f: T -> bool)
    requires forall x :: x in s ==> f(x)
    ensures Keep(s, f) == s
  {
    if s != [] {
      KeepAll(s[1..], f);
    }
  }

  /** Two tests that agree on the elements of `s` keep the same elements of `s`. */
  lemma {:induction false} KeepCongruent<T(!new)>(s: seq<T>, f: T -> bool, g: T -> bool)
    requires forall x :: x in s ==> f(x) == g(x)
    ensures Keep(s, f) == Keep(s, g)
  {
    if s != [] {
      KeepCongruent(s[1..], f, g);
    }
  }

  /** `s.map(g)`. */
  function MapSeq<T, U>(s: seq<T>, g: T -> U): (r: seq<U>)
    ensures |r| == |s|
    ensures forall i :: 0 <= i < |s| ==> r[i] == g(s[i])
  {
    if s == [] then [] else [g(s[0])] + MapSeq(s[1..], g)
  }

  /** Filtering the mapped sequence by a test the map leaves alone is mapping
      the filtered sequence. */
  lemma {:induction false} KeepMapCommute<T(!new), U(!new)>(s: seq<T>, f: T -> bool, g: T -> U, h: U -> bool)
    requires forall x :: x in s ==> h(g(x)) == f(x)
    ensures MapSeq(Keep(s, f), g) == Keep(MapSeq(s, g), h)
  {
    if s != [] {
      KeepMapCommute(s[1..], f, g, h);
      assert MapSeq(s, g) == [g(s[0])] + MapSeq(s[1..], g);
      assert MapSeq(s, g)[1..] == MapSeq(s[1..], g);
    }
  }

  // ----- the owner's dashboard list (src/app/dashboard/blog/page.tsx) -----

  /** One post passes the search box and the two drop-down filters. */
  predicate MatchesFilters(p: Post, query: string, category: string, status: string) {
    && Includes(Lower(p.title), Lower(query))
    && (category == "" || p.category == category)
    && (status == "" || p.status == status)
  }

  /** `filteredPosts`: the posts whose lowered title includes the lowered query
      and that have the selected category and status, in their original order. */
  function FilterPosts(ps: seq<Post>, query: string, category: string, status: string): (r: seq<Post>)
    ensures IsSubsequence(r, ps)
    ensures forall p :: p in r <==> p in ps && MatchesFilters(p, query, category, status)
    ensures category != "" ==> forall p :: p in r ==> p.category == category
    ensures status != "" ==> forall p :: p in r ==> p.status == status
  {
    Keep(ps, p => MatchesFilters(p, query, category, status))
  }

  /** A shown post's lowered title contains the lowered query as a substring. */
  lemma FilteredTitleContainsQuery(p: Post, ps: seq<Post>, query: string, category: string, status: string)
    requires p in FilterPosts(ps, query, category, status)
    ensures exists i :: OccursAt(Lower(p.title), Lower(query), i)
  {
    IncludesIffOccurs(Lower(p.title), Lower(query));
  }

  /** With an empty query and no filter selected, every post is shown. */
  lemma NoFilterShowsAll(ps: seq<Post>)
    ensures FilterPosts(ps, "", "", "") == ps
  {
    forall p | p in ps ensures MatchesFilters(p, "", "", "") {
      IncludesEmpty(Lower(p.title));
    }
    KeepAll(ps, p => MatchesFilters(p, "", "", ""));
  }

  /** The search is case-insensitive: lowering the query changes nothing. */
  lemma SearchIgnoresCase(ps: seq<Post>, query: string, category: string, status: string)
    ensures FilterPosts(ps, query, category, status) == FilterPosts(ps, Lower(query), category, status)
  {
    LowerIdempotent(query);
    KeepCongruent(ps, p => MatchesFilters(p, query, category, status),
                      p => MatchesFilters(p, Lower(query), category, status));
  }

  /** Narrowing the search never shows more: whatever the longer query finds,
      the shorter query it starts with finds too. */
  lemma NarrowerQueryShowsLess(ps: seq<Post>, query: string, more: string, category: string, status: string)
    ensures forall p :: p in FilterPosts(ps, query + more, category, status) ==> p in FilterPosts(ps, query, category, status)
  {
    LowerAppend(query, more);
    forall p | p in FilterPosts(ps, query + more, category, status)
      ensures p in FilterPosts(ps, query, category, status)
    {
      IncludesPrefix(Lower(p.title), Lower(query), Lower(more));
    }
  }

  /** Every post carries a distinct id. */
  ghost predicate UniqueIds(ps: seq<Post>) {
    forall i, j :: 0 <= i < j < |ps| ==> ps[i].id != ps[j].id
  }

  /** Some post carries id `id`. */
  predicate HasId(ps: seq<Post>, id: int) {
    exists i :: 0 <= i < |ps| && ps[i].id == id
  }

  /** `posts.filter((post) => post.id !== id)`: every post with that id is
      dropped, every other post is kept as often as it occurs, in order. */
  function RemoveById(ps: seq<Post>, id: int): (r: seq<Post>)
    ensures IsSubsequence(r, ps)
    ensures forall p :: p in r ==> p.id != id
    ensures forall p :: multiset(r)[p] == if p.id == id then 0 else multiset(ps)[p]
    ensures !HasId(ps, id) ==> r == ps
  {
    var f := (p: Post) => p.id != id;
    if !HasId(ps, id) then
      KeepAll(ps, f);
      Keep(ps, f)
    else
      Keep(ps, f)
  }

  /** With unique ids a successful delete removes exactly one post when the id
      is present and none when it is absent. */
  lemma {:induction false} RemoveByIdUnique(ps: seq<Post>, id: int)
    requires UniqueIds(ps)
    ensures |RemoveById(ps, id)| == if HasId(ps, id) then |ps| - 1 else |ps|
  {
    if ps != [] {
      var f := (p: Post) => p.id != id;
      assert ps == [ps[0]] + ps[1..];
      assert UniqueIds(ps[1..]);
      if ps[0].id == id {
        assert !HasId(ps[1..], id);
        KeepAll(ps[1..], f);
        assert Keep(ps, f) == Keep(ps[1..], f);
      } else {
        RemoveByIdUnique(ps[1..], id);
        assert HasId(ps, id) == HasId(ps[1..], id) by {
          if HasId(ps, id) {
            var i :| 0 <= i < |ps| && ps[i].id == id;
            assert ps[1..][i - 1].id == id;
          }
          if HasId(ps[1..], id) {
            var i :| 0 <= i < |ps[1..]| && ps[1..][i].id == id;
            assert ps[i + 1].id == id;
          }
        }
        assert Keep(ps, f) == [ps[0]] + Keep(ps[1..], f);
      }
    }
  }

  /** The owner's list keeps only `{ id }` of each author. */
  function ProjectAuthorId(p: Post): (q: Post)
    ensures q.author.id == p.author.id && q.author.name.None? && q.author.extra == map[]
    ensures q.(author := p.author) == p
  {
    p.(author := Author(p.author.id, None, map[]))
  }

  /** The owner's list after a fetch: the payload in order, authors projected. */
  function OwnerList(payload: seq<Post>): (r: seq<Post>)
    ensures |r| == |payload|
    ensures forall i :: 0 <= i < |r| ==> r[i] == ProjectAuthorId(payload[i])
  {
    MapSeq(payload, ProjectAuthorId)
  }

  // ----- the public feed and the admin overview -----

  /** Both the public feed and the admin overview keep `{ id, name }` of each author. */
  function ProjectAuthorIdName(p: Post): (q: Post)
    ensures q.author.id == p.author.id && q.author.name == p.author.name && q.author.extra == map[]
    ensures q.(author := p.author) == p
  {
    p.(author := Author(p.author.id, p.author.name, map[]))
  }

  predicate IsPosted(p: Post) {
    p.status == "posted"
  }

  datatype CheckedFetch = Received(payload: seq<Post>) | NotReceived(message: string)

  /** What one `fetchPosts` of the public feed or of the admin overview ends in
      (the two are written alike). A response whose `success` is falsy is an
      invalid response; a missing `posts` array, like a rejected request, ends
      in the catch block's message. */
  function CheckedFetchResult(x: Exchange<PostsPage>): (r: CheckedFetch)
    ensures r.Received? <==> (x.Answered? && IsOk(x.status) && x.body.Some? && x.body.value.success
                              && PostsOf(x.body).Some?)
    ensures r.Received? ==> r.payload == PostsOf(x.body).value
    ensures x.Answered? && IsOk(x.status) && !(x.body.Some? && x.body.value.success) ==>
              r == NotReceived("Failed to fetch posts: Invalid response")
    ensures x.Answered? && IsOk(x.status) && x.body.Some? && x.body.value.success && PostsOf(x.body).None? ==>
              r == NotReceived("Failed to fetch posts. Please try again.")
    ensures !(x.Answered? && IsOk(x.status)) ==> r == NotReceived("Failed to fetch posts. Please try again.")
    ensures r.NotReceived? ==> r.message in {"Failed to fetch posts: Invalid response",
                                             "Failed to fetch posts. Please try again."}
  {
    match Axios(x, Only2xx)
    case Fulfilled(_, body) =>
      if body.Some? && body.value.success then
        if PostsOf(body).Some? then Received(PostsOf(body).value)
        else NotReceived("Failed to fetch posts. Please try again.")
      else NotReceived("Failed to fetch posts: Invalid response")
    case Rejected(_) => NotReceived("Failed to fetch posts. Please try again.")
  }

  /** The public feed after a fetch: `filter(status === "posted")` then the
      projection, so every post shown is posted and the server's order is kept. */
  function PostedFeed(payload: seq<Post>): (r: seq<Post>)
    ensures forall q :: q in r ==> q.status == "posted"
    ensures IsSubsequence(r, MapSeq(payload, ProjectAuthorIdName))
  {
    KeepMapCommute(payload, IsPosted, ProjectAuthorIdName, IsPosted);
    MapSeq(Keep(payload, IsPosted), ProjectAuthorIdName)
  }

  /** No posted post of the payload is dropped from the public feed. */
  lemma PostedFeedKeepsEveryPosted(payload: seq<Post>)
    ensures forall p :: p in payload && p.status == "posted" ==> ProjectAuthorIdName(p) in PostedFeed(payload)
  {
    KeepMapCommute(payload, IsPosted, ProjectAuthorIdName, IsPosted);
    var m := MapSeq(payload, ProjectAuthorIdName);
    forall p | p in payload && p.status == "posted" ensures ProjectAuthorIdName(p) in PostedFeed(payload) {
      var i :| 0 <= i < |payload| && payload[i] == p;
      assert m[i] == ProjectAuthorIdName(p);
    }
  }

  /** The admin overview after a fetch: the whole payload, no status filter. */
  function AdminList(payload: seq<Post>): (r: seq<Post>)
    ensures |r| == |payload|
    ensures forall i :: 0 <= i < |r| ==> r[i] == ProjectAuthorIdName(payload[i])
  {
    MapSeq(payload, ProjectAuthorIdName)
  }

  /** The public feed is the admin overview restricted to posted posts. */
  lemma FeedIsPostedPartOfOverview(payload: seq<Post>)
    ensures PostedFeed(payload) == Keep(AdminList(payload), IsPosted)
  {
    KeepMapCommute(payload, IsPosted, ProjectAuthorIdName, IsPosted);
  }
}
