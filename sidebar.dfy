/** The dashboard sidebar (src/app/dashboard/Sidebar.tsx): three menu items
    whose active flags depend on the current path, and the post count that
    the "My Blogs" item shows. */
module Sidebar {
  import opened Http
  import opened Text
  import opened Posts

  /** One entry of `menuItems`; only "My Blogs" has a `count`. */
  datatype MenuItem = MenuItem(text: string, href: string, active: bool, count: Option<int>)

  function MenuItems(pathname: string, postCount: int): (items: seq<MenuItem>)
    ensures |items| == 3
    ensures items[0] == MenuItem("Dashboard", "/dashboard", pathname == "/dashboard", None)
    ensures items[1] == MenuItem("My Blogs", "/dashboard/blog", StartsWith(pathname, "/dashboard/blog"), Some(postCount))
    ensures items[2] == MenuItem("Profile", "/dashboard/profile", pathname == "/dashboard/profile", None)
  {
    [ MenuItem("Dashboard", "/dashboard", pathname == "/dashboard", None),
      MenuItem("My Blogs", "/dashboard/blog", StartsWith(pathname, "/dashboard/blog"), Some(postCount)),
      MenuItem("Profile", "/dashboard/profile", pathname == "/dashboard/profile", None) ]
  }

  /** No path makes two items active: "/dashboard" is too short to start with
      "/dashboard/blog", and "/dashboard/profile" differs from it at index 11. */
  lemma AtMostOneActive(pathname: string, postCount: int)
    ensures forall i, j :: 0 <= i < j < 3 ==>
              !(MenuItems(pathname, postCount)[i].active && MenuItems(pathname, postCount)[j].active)
  {
    StartsWithIndex(pathname, "/dashboard/blog", 11);
    assert "/dashboard/blog"[11] == 'b' && "/dashboard/profile"[11] == 'p';
  }

  /** Each item links to a path that makes that item, and only it, active. */
  lemma EachItemActiveOnItsOwnPath(postCount: int, i: int)
    requires 0 <= i < 3
    ensures MenuItems(MenuItems("", postCount)[i].href, postCount)[i].active
    ensures forall j :: 0 <= j < 3 && j != i ==> !MenuItems(MenuItems("", postCount)[i].href, postCount)[j].active
  {
    var href := MenuItems("", postCount)[i].href;
    AtMostOneActive(href, postCount);
    if i == 1 {
      assert StartsWith("/dashboard/blog", "/dashboard/blog");
    }
  }

  /** `item.count !== undefined && !loading`. */
  function BadgeShown(item: MenuItem, loading: bool): (shown: bool)
    ensures shown ==> item.count.Some? && !loading
    ensures item.count.Some? && !loading ==> shown
  {
    item.count.Some? && !loading
  }

  /** The badge appears on "My Blogs" alone, and only once loading is over. */
  lemma OnlyMyBlogsHasBadge(pathname: string, postCount: int, loading: bool, i: int)
    requires 0 <= i < 3
    ensures BadgeShown(MenuItems(pathname, postCount)[i], loading) <==> i == 1 && !loading
  {
  }

  /** The count a fetch delivers: `response.data.data.count || 0`, and 0 when
      the request fails or the body has no `data` (the TypeError is caught). */
  function DeliveredCount(x: Exchange<PostsPage>): (n: int)
    ensures x.Answered? && IsOk(x.status) && DataOf(x.body).Some? && DataOf(x.body).value.count.Some? ==>
              n == DataOf(x.body).value.count.value
    ensures !(x.Answered? && IsOk(x.status) && DataOf(x.body).Some? && DataOf(x.body).value.count.Some?) ==> n == 0
  {
    match Axios(x, Only2xx)
    case Fulfilled(_, body) =>
      if DataOf(body).Some? && DataOf(body).value.count.Some? then DataOf(body).value.count.value else 0
    case Rejected(_) => 0
  }

  class SidebarState {
    var pathname: string
    var postCount: int
    var loading: bool

    constructor (path: string)
      ensures pathname == path && postCount == 0 && loading
    {
      pathname, postCount, loading := path, 0, true;
    }

    /** The menu for the current path: Dashboard, My Blogs with the count,
        and Profile, of which at most one is active. */
    function Items(): (items: seq<MenuItem>)
      reads this
      ensures |items| == 3
      ensures items[0].text == "Dashboard" && items[0].href == "/dashboard"
      ensures items[1].text == "My Blogs" && items[1].href == "/dashboard/blog"
      ensures items[2].text == "Profile" && items[2].href == "/dashboard/profile"
      ensures items[0].active <==> pathname == "/dashboard"
      ensures items[1].active <==> StartsWith(pathname, "/dashboard/blog")
      ensures items[2].active <==> pathname == "/dashboard/profile"
      ensures items[1].count == Some(postCount) && items[0].count.None? && items[2].count.None?
      ensures forall i, j :: 0 <= i < j < 3 ==> !(items[i].active && items[j].active)
    {
      AtMostOneActive(pathname, postCount);
      MenuItems(pathname, postCount)
    }

    /** `fetchPostCount`: every failure falls back to 0; `loading` ends false. */
    method FetchPostCount(x: Exchange<PostsPage>)
      modifies this`postCount, this`loading
      ensures postCount == DeliveredCount(x) && !loading
    {
      loading := true;
      match Axios(x, Only2xx) {
        case Fulfilled(_, body) =>
          var data := DataOf(body);
          if data.Some? {
            postCount := if data.value.count.Some? && data.value.count.value != 0 then data.value.count.value else 0;
          } else {
            postCount := 0;
          }
        case Rejected(_) =>
          postCount := 0;
      }
      loading := false;
    }
  }
}
