/** The owner's post list (src/app/dashboard/blog/page.tsx): the posts fetched
    at mount, the search and filter inputs, delete with confirmation, and the
    like and comment buttons that reload the page. */
module DashboardBlog {
  import opened Http
  import opened Posts

  const FetchMessages := CatchMessages("Failed to fetch posts",
                                       "No response from server. Please try again later.",
                                       "An error occurred while fetching posts.",
                                       "An unexpected error occurred")

  const DeleteMessages := CatchMessages("Failed to delete post",
                                        "No response from server. Please try again later.",
                                        "An error occurred while deleting the post.",
                                        "An unexpected error occurred")

  datatype FetchResult = Loaded(payload: seq<Post>) | FetchFailed(message: string)

  /** What the mount-time fetch ends in. The response's `success` flag is not
      looked at; a missing `posts` array is a TypeError, an unexpected error. */
  function FetchResultOf(x: Exchange<PostsPage>): (r: FetchResult)
    ensures r.Loaded? <==> x.Answered? && IsOk(x.status) && PostsOf(x.body).Some?
    ensures r.Loaded? ==> r.payload == PostsOf(x.body).value
    ensures x.Answered? && IsOk(x.status) && PostsOf(x.body).None? ==>
              r == FetchFailed("An unexpected error occurred")
    ensures x.Answered? && !IsOk(x.status) ==>
              r == FetchFailed(OrElse(MessageOf(x.body), "Failed to fetch posts"))
    ensures x.NoAnswer? ==> r == FetchFailed("No response from server. Please try again later.")
    ensures x.NotSent? ==> r == FetchFailed("An error occurred while fetching posts.")
  {
    match Axios(x, Only2xx)
    case Fulfilled(_, body) =>
      if PostsOf(body).Some? then Loaded(PostsOf(body).value) else FetchFailed(Classify(NotAxios, FetchMessages))
    case Rejected(t) => FetchFailed(Classify(t, FetchMessages))
  }

  /** The alert a confirmed delete shows; `None` when the delete succeeded. */
  function DeleteAlert(x: Exchange<()>): (r: Option<string>)
    ensures r.None? <==> x.Answered? && IsOk(x.status)
    ensures x.Answered? && !IsOk(x.status) ==> r == Some(OrElse(MessageOf(x.body), "Failed to delete post"))
    ensures x.NoAnswer? ==> r == Some("No response from server. Please try again later.")
    ensures x.NotSent? ==> r == Some("An error occurred while deleting the post.")
  {
    match Axios(x, Only2xx)
    case Fulfilled(_, _) => None
    case Rejected(t) => Some(Classify(t, DeleteMessages))
  }

  /** A failed delete always shows a non-empty alert. */
  lemma DeleteAlertNonEmpty(x: Exchange<()>)
    ensures DeleteAlert(x).Some? ==> DeleteAlert(x).value != ""
  {
  }

  /** What the page shows, in the order the render checks it. */
  datatype Screen = ShowLoading | ShowError(message: string) | ShowGrid(shown: seq<Post>, noMatchNotice: bool)

  class BlogListView {
    var posts: seq<Post>
    var searchQuery: string
    var filterCategory: string
    var filterStatus: string
    var loading: bool
    var error: Option<string>
    var lastAlert: Option<string>     // the most recent `alert(…)`
    var reloadRequested: bool         // `window.location.reload()` was called

    constructor ()
      ensures posts == [] && searchQuery == "" && filterCategory == "" && filterStatus == ""
      ensures loading && error == None && lastAlert == None && !reloadRequested
    {
      posts, searchQuery, filterCategory, filterStatus := [], "", "", "";
      loading, error, lastAlert, reloadRequested := true, None, None, false;
    }

    /** `filteredPosts`, on the current state. */
    function FilteredPosts(): (r: seq<Post>)
      reads this
      ensures IsSubsequence(r, posts)
      ensures forall p :: p in r <==> p in posts && MatchesFilters(p, searchQuery, filterCategory, filterStatus)
    {
      FilterPosts(posts, searchQuery, filterCategory, filterStatus)
    }

    /** Loading first, then a truthy error, then the grid of filtered posts
        with the "no posts found" notice when none match. */
    function Screen(): (s: Screen)
      reads this
      ensures loading ==> s == ShowLoading
      ensures !loading && Truthy(error) ==> s == ShowError(error.value)
      ensures s.ShowGrid? <==> !loading && !Truthy(error)
      ensures s.ShowGrid? ==> s.shown == FilteredPosts() && (s.noMatchNotice <==> |FilteredPosts()| == 0)
    {
      if loading then ShowLoading
      else if Truthy(error) then ShowError(error.value)
      else ShowGrid(FilteredPosts(), |FilteredPosts()| == 0)
    }

    /** The mount-time `fetchPosts`. A success replaces `posts` with the payload,
        authors projected to `{ id }`; a failure keeps `posts` and sets `error`.
        `error` is not cleared first. `loading` ends false either way. */
    method FetchPosts(x: Exchange<PostsPage>)
      modifies this
      ensures !loading
      ensures match FetchResultOf(x)
              case Loaded(payload) => posts == OwnerList(payload) && error == old(error)
              case FetchFailed(m) => posts == old(posts) && error == Some(m)
      ensures searchQuery == old(searchQuery) && filterCategory == old(filterCategory) && filterStatus == old(filterStatus)
      ensures lastAlert == old(lastAlert) && reloadRequested == old(reloadRequested)
    {
      loading := true;
      match Axios(x, Only2xx) {
        case Fulfilled(_, body) =>
          var payload := PostsOf(body);
          if payload.Some? {
            posts := OwnerList(payload.value);
          } else {
            error := Some(Classify(NotAxios, FetchMessages));
          }
        case Rejected(t) =>
          error := Some(Classify(t, FetchMessages));
      }
      loading := false;
    }

    /** `handleDelete`: nothing happens unless the user confirms; then a
        success drops every post with that id, and a failure keeps `posts`
        and shows exactly one alert. `requested` says whether a request went out. */
    method HandleDelete(id: int, confirmed: bool, x: Exchange<()>) returns (requested: bool)
      modifies this
      ensures requested == confirmed
      ensures !confirmed ==> unchanged(this)
      ensures confirmed && DeleteAlert(x).None? ==> posts == RemoveById(old(posts), id) && lastAlert == old(lastAlert)
      ensures confirmed && DeleteAlert(x).Some? ==> posts == old(posts) && lastAlert == DeleteAlert(x)
      ensures searchQuery == old(searchQuery) && filterCategory == old(filterCategory) && filterStatus == old(filterStatus)
      ensures loading == old(loading) && error == old(error) && reloadRequested == old(reloadRequested)
    {
      requested := false;
      if confirmed {
        requested := true;
        match Axios(x, Only2xx) {
          case Fulfilled(_, _) =>
            posts := RemoveById(posts, id);
          case Rejected(t) =>
            lastAlert := Some(Classify(t, DeleteMessages));
        }
      }
    }

    /** `handleLike`: a successful request reloads the page, a failed one is ignored. */
    method HandleLike(x: Exchange<()>)
      modifies this
      ensures reloadRequested == (old(reloadRequested) || (x.Answered? && IsOk(x.status)))
      ensures posts == old(posts) && error == old(error) && loading == old(loading) && lastAlert == old(lastAlert)
      ensures searchQuery == old(searchQuery) && filterCategory == old(filterCategory) && filterStatus == old(filterStatus)
    {
      ReloadOnSuccess(x);
    }

    /** `handleComment`: the same as `handleLike`, against the comment endpoint. */
    method HandleComment(x: Exchange<()>)
      modifies this
      ensures reloadRequested == (old(reloadRequested) || (x.Answered? && IsOk(x.status)))
      ensures posts == old(posts) && error == old(error) && loading == old(loading) && lastAlert == old(lastAlert)
      ensures searchQuery == old(searchQuery) && filterCategory == old(filterCategory) && filterStatus == old(filterStatus)
    {
      ReloadOnSuccess(x);
    }

    method ReloadOnSuccess(x: Exchange<()>)
      modifies this`reloadRequested
      ensures reloadRequested == (old(reloadRequested) || (x.Answered? && IsOk(x.status)))
    {
      if Axios(x, Only2xx).Fulfilled? {
        reloadRequested := true;
      }
    }
  }
}
