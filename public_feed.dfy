/** The public feed (src/app/blog/page.tsx): fetch the posts, keep the posted
    ones, and refetch after a successful like or comment. */
module PublicFeed {
  import opened Http
  import opened Posts

  /** What the feed shows, in the order the render checks it. */
  datatype Screen = ShowLoading | ShowError(message: string) | ShowEmpty | ShowGrid(shown: seq<Post>)

  /** Two posts, one posted and one draft: the feed shows exactly the posted one. */
  lemma FeedShowsOnlyThePostedCard(a: Post, b: Post)
    requires a.status == "posted" && b.status == "draft"
    ensures PostedFeed([a, b]) == [ProjectAuthorIdName(a)]
  {
    assert [a, b][1..] == [b];
    assert Keep([a, b], IsPosted) == [a] + Keep([b], IsPosted);
    assert [b][1..] == [];
  }

  class FeedView {
    var posts: seq<Post>
    var loading: bool
    var error: Option<string>

    constructor ()
      ensures posts == [] && loading && error == None
    {
      posts, loading, error := [], true, None;
    }

    /** Loading, then a truthy error, then "No published posts available."
        for an empty list, then the grid of the held posts. */
    function Screen(): (s: Screen)
      reads this
      ensures loading ==> s == ShowLoading
      ensures !loading && Truthy(error) ==> s == ShowError(error.value)
      ensures s.ShowEmpty? <==> !loading && !Truthy(error) && posts == []
      ensures s.ShowGrid? <==> !loading && !Truthy(error) && posts != []
      ensures s.ShowGrid? ==> s.shown == posts
    {
      if loading then ShowLoading
      else if Truthy(error) then ShowError(error.value)
      else if |posts| == 0 then ShowEmpty
      else ShowGrid(posts)
    }

    /** `fetchPosts`: `loading` is set and `error` cleared first, `loading` is
        false at the end; a success replaces `posts` with the posted part of the
        payload, a failure keeps `posts`. */
    method FetchPosts(x: Exchange<PostsPage>)
      modifies this
      ensures !loading
      ensures match CheckedFetchResult(x)
              case Received(payload) => posts == PostedFeed(payload) && error == None
              case NotReceived(m) => posts == old(posts) && error == Some(m)
      ensures forall q :: q in posts ==> q.status == "posted" || q in old(posts)
    {
      loading := true;
      error := None;
      match Axios(x, Only2xx) {
        case Fulfilled(_, body) =>
          if body.Some? && body.value.success {
            var payload := PostsOf(body);
            if payload.Some? {
              posts := PostedFeed(payload.value);
            } else {
              error := Some("Failed to fetch posts. Please try again.");
            }
          } else {
            error := Some("Failed to fetch posts: Invalid response");
          }
        case Rejected(_) =>
          error := Some("Failed to fetch posts. Please try again.");
      }
      loading := false;
    }

    /** `handleLike`: a successful like refetches the feed (its outcome is
        `refetch`), a failed one changes nothing. The like count in the
        response is not used. */
    method HandleLike(like: Exchange<()>, refetch: Exchange<PostsPage>)
      modifies this
      ensures !(like.Answered? && IsOk(like.status)) ==> unchanged(this)
      ensures like.Answered? && IsOk(like.status) ==> !loading
      ensures like.Answered? && IsOk(like.status) ==>
                (match CheckedFetchResult(refetch)
                 case Received(payload) => posts == PostedFeed(payload) && error == None
                 case NotReceived(m) => posts == old(posts) && error == Some(m))
    {
      if Axios(like, Only2xx).Fulfilled? {
        FetchPosts(refetch);
      }
    }

    /** `handleComment`: the same as `handleLike`, against the comment endpoint. */
    method HandleComment(comment: Exchange<()>, refetch: Exchange<PostsPage>)
      modifies this
      ensures !(comment.Answered? && IsOk(comment.status)) ==> unchanged(this)
      ensures comment.Answered? && IsOk(comment.status) ==> !loading
      ensures comment.Answered? && IsOk(comment.status) ==>
                (match CheckedFetchResult(refetch)
                 case Received(payload) => posts == PostedFeed(payload) && error == None
                 case NotReceived(m) => posts == old(posts) && error == Some(m))
    {
      if Axios(comment, Only2xx).Fulfilled? {
        FetchPosts(refetch);
      }
    }
  }
}
