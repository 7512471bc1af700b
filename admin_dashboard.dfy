/** The admin overview (src/app/dashboard/page.tsx): every post of the first
    page, the aggregate stats for a chosen period, and delete-then-refetch. */
module AdminDashboard {
  import opened Http
  import opened Posts

  /** The `stats` object: the three totals the stat cards show. */
  datatype Stats = Stats(totalBlogs: int, totalLikes: int, totalComments: int)

  /** What the posts section shows, in the order the render checks it. */
  datatype Section = ShowLoading | ShowError(message: string) | ShowTable(rows: seq<Post>)

  class AdminView {
    var posts: seq<Post>
    var stats: Option<Stats>      // `None`: the response had no `data`, so `stats` became `undefined`
    var period: string
    var loading: bool
    var error: Option<string>
    var lastAlert: Option<string>

    constructor ()
      ensures posts == [] && stats == Some(Stats(0, 0, 0)) && period == "monthly"
      ensures loading && error == None && lastAlert == None
    {
      posts, stats, period := [], Some(Stats(0, 0, 0)), "monthly";
      loading, error, lastAlert := true, None, None;
    }

    /** Loading first, then a truthy error with its text, then the table of
        the held posts (possibly empty). */
    function PostsSection(): (s: Section)
      reads this
      ensures s.ShowLoading? <==> loading
      ensures s.ShowError? <==> !loading && Truthy(error)
      ensures s.ShowError? ==> s.message == error.value
      ensures s.ShowTable? ==> s.rows == posts
    {
      if loading then ShowLoading
      else if Truthy(error) then ShowError(error.value)
      else ShowTable(posts)
    }

    /** `posts.length === 0 && !loading && !error`: the "No posts found"
        notice, which shows exactly when the section is an empty table. */
    predicate ShowsNoPostsNotice()
      reads this
      ensures ShowsNoPostsNotice() <==> PostsSection() == ShowTable([])
    {
      |posts| == 0 && !loading && !Truthy(error)
    }

    /** `fetchPosts`: `loading` set and `error` cleared first, `loading` false
        at the end; a success replaces `posts` with the whole payload (no
        status filter, authors projected to `{ id, name }`), a failure keeps
        `posts`. Afterwards the empty-state notice shows exactly when the
        fetch succeeded with an empty payload. */
    method FetchPosts(x: Exchange<PostsPage>)
      modifies this
      ensures !loading
      ensures match CheckedFetchResult(x)
              case Received(payload) => posts == AdminList(payload) && error == None
              case NotReceived(m) => posts == old(posts) && error == Some(m)
      ensures ShowsNoPostsNotice() <==> CheckedFetchResult(x) == Received([])
      ensures stats == old(stats) && period == old(period) && lastAlert == old(lastAlert)
    {
      loading := true;
      error := None;
      match Axios(x, Only2xx) {
        case Fulfilled(_, body) =>
          if body.Some? && body.value.success {
            var payload := PostsOf(body);
            if payload.Some? {
              posts := AdminList(payload.value);
            } else {
              error := Some("Failed to fetch posts. Please try again.");
            }
          } else {
            error := Some("Failed to fetch posts: Invalid response");
          }
        case Rejected(_) =>
          error := Some("Failed to fetch posts. Please try again.");
      }
      loading := false;
    }

    /** `fetchStats`: a success sets `stats` to the response's `data`, whatever
        it is; a failure leaves `stats` as it was. */
    method FetchStats(x: Exchange<Stats>)
      modifies this`stats
      ensures x.Answered? && IsOk(x.status) ==> stats == DataOf(x.body)
      ensures !(x.Answered? && IsOk(x.status)) ==> stats == old(stats)
    {
      match Axios(x, Only2xx) {
        case Fulfilled(_, body) =>
          stats := DataOf(body);
        case Rejected(_) =>
      }
    }

    /** The effect that runs at mount: fetch the posts, then the stats. */
    method Mount(postsReply: Exchange<PostsPage>, statsReply: Exchange<Stats>)
      modifies this
      ensures !loading && period == old(period) && lastAlert == old(lastAlert)
      ensures match CheckedFetchResult(postsReply)
              case Received(payload) => posts == AdminList(payload) && error == None
              case NotReceived(m) => posts == old(posts) && error == Some(m)
      ensures statsReply.Answered? && IsOk(statsReply.status) ==> stats == DataOf(statsReply.body)
      ensures !(statsReply.Answered? && IsOk(statsReply.status)) ==> stats == old(stats)
    {
      FetchPosts(postsReply);
      FetchStats(statsReply);
    }

    /** Choosing a period: the effect depends on `period`, so choosing a new one
        refetches both the posts and the stats, and choosing the same one does
        nothing. */
    method ChangePeriod(p: string, postsReply: Exchange<PostsPage>, statsReply: Exchange<Stats>)
      modifies this
      ensures p == old(period) ==> unchanged(this)
      ensures period == p && lastAlert == old(lastAlert)
      ensures p != old(period) ==> !loading
      ensures p != old(period) ==>
                (match CheckedFetchResult(postsReply)
                 case Received(payload) => posts == AdminList(payload) && error == None
                 case NotReceived(m) => posts == old(posts) && error == Some(m))
      ensures p != old(period) && statsReply.Answered? && IsOk(statsReply.status) ==> stats == DataOf(statsReply.body)
      ensures p != old(period) && !(statsReply.Answered? && IsOk(statsReply.status)) ==> stats == old(stats)
    {
      if p != period {
        period := p;
        Mount(postsReply, statsReply);
      }
    }

    /** `handleDelete`: nothing happens unless the user confirms; a successful
        delete refetches the list (its outcome is `refetch`), a failed one
        alerts "Failed to delete post" and leaves the list alone. */
    method HandleDelete(id: int, confirmed: bool, del: Exchange<()>, refetch: Exchange<PostsPage>)
      returns (requested: bool)
      modifies this
      ensures requested == confirmed
      ensures !confirmed ==> unchanged(this)
      ensures confirmed && !(del.Answered? && IsOk(del.status)) ==>
                posts == old(posts) && lastAlert == Some("Failed to delete post")
                && loading == old(loading) && error == old(error)
      ensures confirmed && del.Answered? && IsOk(del.status) ==>
                !loading && lastAlert == old(lastAlert) &&
                (match CheckedFetchResult(refetch)
                 case Received(payload) => posts == AdminList(payload) && error == None
                 case NotReceived(m) => posts == old(posts) && error == Some(m))
      ensures stats == old(stats) && period == old(period)
    {
      requested := false;
      if confirmed {
        requested := true;
        match Axios(del, Only2xx) {
          case Fulfilled(_, _) =>
            FetchPosts(refetch);
          case Rejected(_) =>
            lastAlert := Some("Failed to delete post");
        }
      }
    }
  }
}
