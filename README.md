# Blog front end: client logic, modelled and verified in Dafny

This project models the client-side logic of a Next.js blog and admin
dashboard and proves properties about it. The model covers:

- three views that hold a list of posts: the public feed, the owner's
  "My Blogs" list, and the admin overview;
- the forms: create post, login, register, forgot password, profile,
  newsletter;
- the dashboard layout's authentication gate, with its countdown;
- the sidebar's menu logic.

The backend is not part of the model. Every HTTP call is an input value
describing how the call ended:

- an axios call is an `Http.Exchange`: answered with a status and a body,
  no answer, or not sent;
- a `fetch` call is an `Http.FetchReply`.

`Http.Axios` reproduces axios's `validateStatus` rule and the error kinds a
`catch` block can tell apart. `Http.OrElse` is JavaScript's
`message || fallback` on a possibly missing string.

Each view or form is a `class`. Its fields are the component's `useState`
values, plus plain fields for the browser services it uses:

- the stored token;
- the `router.push` history;
- the last `alert`;
- a reload flag;
- pending timers.

Each event handler is a method. Its postcondition ties the new state to a
pure function of the call's outcome, and that function's own contract and
lemmas state what the page promises. The shared post-list logic lives in
`Posts`:

- `filteredPosts`;
- delete-by-id;
- the author projections;
- the success-checked fetch.

Strings are treated as ASCII (module `Text`).

Modules, one per source file, plus the shared ones:
`Http`, `Text`, `Posts`, `DashboardBlog`, `PublicFeed`, `AdminDashboard`,
`CreatePost`, `AuthGate`, `Login`, `Register`, `ForgotPassword`, `Profile`,
`Sidebar`, `Newsletter`.

## Model

| member | source | states |
|---|---|---|
| Http.OrElse | src/app/login/page.tsx:55 | `m \|\| fallback`: the message when it is present and non-empty, else the fallback; never empty when the fallback is not |
| Http.MessageOf | src/app/login/page.tsx:55 | `response.data?.message`: the envelope's message, and nothing when the body is not an envelope |
| Http.DataOf | src/app/dashboard/page.tsx:90 | `res.data.data`: the envelope's data, and nothing when the body is not an envelope |
| Http.Axios | src/app/login/page.tsx:36-49 | a request is fulfilled exactly when answered with a status the rule accepts; a rejection carries the response's status and message, or says no response came, or that the request was never sent |
| Http.Below500RejectsOnlyServerErrors | src/app/login/page.tsx:47 | with `status < 500` only a 5xx or a missing response is rejected |
| Http.Classify | src/app/dashboard/blog/page.tsx:76-86 | the catch-block cascade: the response's message or the fallback, then the no-response text, then the generic axios text, then the unexpected-error text |
| Http.ClassifyPicksOne | src/app/dashboard/blog/page.tsx:109-119 | the chosen message is one of the four fixed texts unless it is the server's own truthy message |
| Text.Lower | src/app/dashboard/blog/page.tsx:147 | `toLowerCase` keeps the length and lowers each ASCII letter in place |
| Text.LowerIdempotent | src/app/dashboard/blog/page.tsx:147 | lowering twice equals lowering once |
| Text.LowerAppend | src/app/dashboard/blog/page.tsx:147 | lowering distributes over concatenation |
| Text.Includes | src/app/dashboard/blog/page.tsx:147 | `includes` holds whenever the needle is a prefix, and only for a needle no longer than the string |
| Text.IncludesIffOccurs | src/app/dashboard/blog/page.tsx:147 | `includes` holds exactly when the needle occurs at some index |
| Text.IncludesPrefix | src/app/dashboard/blog/page.tsx:147 | a string that includes `a + b` includes `a` |
| Text.IncludesEmpty | src/app/dashboard/blog/page.tsx:147 | every title includes the empty query |
| Text.StartsWithIndex | src/app/dashboard/Sidebar.tsx:79 | a string that starts with `p` agrees with `p` at each index of `p` |
| Posts.PostsOf | src/app/dashboard/blog/page.tsx:70 | `response.data.data.posts`: the `posts` of the body's `data` object when there is one, and nothing when the body or its `data` is missing |
| Posts.Keep | src/app/dashboard/blog/page.tsx:146-150 | `filter` keeps exactly the elements satisfying the predicate, each as often as it occurs, in order |
| Posts.KeepAll | src/app/dashboard/blog/page.tsx:146-150 | filtering with a predicate every element satisfies returns the list itself |
| Posts.KeepCongruent | src/app/dashboard/blog/page.tsx:146-150 | two predicates that agree on the list filter it alike |
| Posts.MapSeq | src/app/dashboard/blog/page.tsx:70-73 | `map` applies the function at every index and keeps the length |
| Posts.KeepMapCommute | src/app/blog/page.tsx:49-54 | filtering then mapping equals mapping then filtering when the mapping preserves the predicate |
| Posts.FilterPosts | src/app/dashboard/blog/page.tsx:146-150 | `filteredPosts` is a subsequence of `posts`; a post is shown exactly when `Posts.MatchesFilters` holds: its lowered title includes the lowered query and it has the chosen category and status; a non-empty filter fixes that field |
| Posts.FilteredTitleContainsQuery | src/app/dashboard/blog/page.tsx:147 | every shown post's lowered title contains the lowered query at some index |
| Posts.NoFilterShowsAll | src/app/dashboard/blog/page.tsx:146-149 | with an empty query and empty filters the list is shown whole |
| Posts.SearchIgnoresCase | src/app/dashboard/blog/page.tsx:147 | searching for a query and for its lower-case form shows the same posts |
| Posts.NarrowerQueryShowsLess | src/app/dashboard/blog/page.tsx:147 | extending the query never adds a post to the result |
| Posts.RemoveById | src/app/dashboard/blog/page.tsx:106 | after a delete no post has that id, every other post keeps its multiplicity and order, and a list without the id is unchanged |
| Posts.RemoveByIdUnique | src/app/dashboard/blog/page.tsx:106 | with unique ids the length drops by one when the id is present and by none otherwise |
| Posts.ProjectAuthorId | src/app/dashboard/blog/page.tsx:70-73 | the owner's list keeps only the author's id and leaves every other field of the post as it was |
| Posts.OwnerList | src/app/dashboard/blog/page.tsx:70-74 | the owner's list is the payload in order, each post with its author reduced to `{ id }` |
| Posts.ProjectAuthorIdName | src/app/blog/page.tsx:51-54 | the feed keeps the author's id and name and leaves every other field of the post as it was |
| Posts.CheckedFetchResult | src/app/blog/page.tsx:45-61 | a fetch delivers the posts exactly when a 2xx response says `success` and carries `posts`; a falsy `success` is an invalid response; every other failure shows the catch message |
| Posts.PostedFeed | src/app/blog/page.tsx:49-55 | every post the feed holds is posted, and the feed is a subsequence of the projected payload, so server order is kept |
| Posts.PostedFeedKeepsEveryPosted | src/app/blog/page.tsx:49-50 | no posted post of the payload is dropped from the feed |
| Posts.AdminList | src/app/dashboard/page.tsx:69-73 | the overview holds the whole payload in order, authors reduced to `{ id, name }`, with no status filter |
| Posts.FeedIsPostedPartOfOverview | src/app/dashboard/page.tsx:69-73 | the public feed is the admin overview restricted to posted posts |
| DashboardBlog.FetchResultOf | src/app/dashboard/blog/page.tsx:58-91 | the owner's fetch ignores `success`: it loads whenever a 2xx response carries `posts`; otherwise it yields the classified message, with a missing `posts` reported as unexpected |
| DashboardBlog.DeleteAlert | src/app/dashboard/blog/page.tsx:107-120 | a delete alerts exactly when it fails, choosing the server message or "Failed to delete post", the no-response text, or the generic text |
| DashboardBlog.DeleteAlertNonEmpty | src/app/dashboard/blog/page.tsx:107-120 | a failed delete never shows an empty alert |
| DashboardBlog.BlogListView.constructor | src/app/dashboard/blog/page.tsx:48-54 | empty list, empty search and filters, loading, no error |
| DashboardBlog.BlogListView.FilteredPosts | src/app/dashboard/blog/page.tsx:146-150 | the shown posts are a subsequence of the held posts, exactly those that match the current search and filters |
| DashboardBlog.BlogListView.Screen | src/app/dashboard/blog/page.tsx:152-295 | loading first, then a truthy error, then the filtered grid, with the "no posts found" notice exactly when nothing matches |
| DashboardBlog.BlogListView.FetchPosts | src/app/dashboard/blog/page.tsx:58-91 | on load the list becomes the payload with authors reduced to `{ id }`; on failure the list is kept and the error set; `loading` ends false and the filters are untouched |
| DashboardBlog.BlogListView.HandleDelete | src/app/dashboard/blog/page.tsx:96-122 | a declined confirmation sends nothing and changes nothing; a success removes every post of that id; a failure keeps the list and shows the one chosen alert |
| DashboardBlog.BlogListView.HandleLike | src/app/dashboard/blog/page.tsx:124-133 | a reload is requested exactly when the like succeeds; nothing else changes |
| DashboardBlog.BlogListView.HandleComment | src/app/dashboard/blog/page.tsx:135-144 | a reload is requested exactly when the comment succeeds; nothing else changes |
| PublicFeed.FeedShowsOnlyThePostedCard | src/app/blog/page.tsx:49-55 | a payload with one posted and one draft post shows exactly the posted one |
| PublicFeed.FeedView.constructor | src/app/blog/page.tsx:32-34 | empty list, loading, no error |
| PublicFeed.FeedView.Screen | src/app/blog/page.tsx:99-111 | loading first, then a truthy error with its text, then "No published posts available." exactly for an empty list, then the grid of the held posts |
| PublicFeed.FeedView.FetchPosts | src/app/blog/page.tsx:41-65 | a delivered payload replaces the list with its posted part and no error; a failure keeps the list and sets the message; `loading` ends false; no draft post ever enters the list |
| PublicFeed.FeedView.HandleLike | src/app/blog/page.tsx:71-80 | a failed like changes nothing; a successful one refetches, with the fetch's effect |
| PublicFeed.FeedView.HandleComment | src/app/blog/page.tsx:82-91 | a failed comment changes nothing; a successful one refetches, with the fetch's effect |
| AdminDashboard.AdminView.constructor | src/app/dashboard/page.tsx:47-52 | empty list, zero stats, period "monthly", loading, no error |
| AdminDashboard.AdminView.PostsSection | src/app/dashboard/page.tsx:162-266 | loading, then a truthy error with its text, then the table of the held posts |
| AdminDashboard.AdminView.ShowsNoPostsNotice | src/app/dashboard/page.tsx:268 | the "No posts found" notice shows exactly when the section is an empty table |
| AdminDashboard.AdminView.FetchPosts | src/app/dashboard/page.tsx:60-83 | a delivered payload replaces the list whole, authors reduced to `{ id, name }`; a failure keeps it; `loading` ends false; the "No posts found" notice shows exactly when the fetch delivered an empty payload |
| AdminDashboard.AdminView.FetchStats | src/app/dashboard/page.tsx:85-94 | a 2xx response sets the stats to its `data`; a failure leaves them unchanged |
| AdminDashboard.AdminView.Mount | src/app/dashboard/page.tsx:55-58 | the effect fetches both the posts and the stats |
| AdminDashboard.AdminView.ChangePeriod | src/app/dashboard/page.tsx:145 | choosing the current period changes nothing; a new period refetches both posts and stats |
| AdminDashboard.AdminView.HandleDelete | src/app/dashboard/page.tsx:100-112 | a declined confirmation changes nothing; a success refetches the list; a failure alerts "Failed to delete post" and keeps the list |
| CreatePost.EndsWithOneOf | src/app/dashboard/blog/create/page.tsx:176-177 | when the scan succeeds, some extension of the list, after a dot, ends the string |
| CreatePost.EndsWithOneOfIff | src/app/dashboard/blog/create/page.tsx:176-177 | the scan over an extension list holds exactly when some extension of the list, after a dot, ends the string |
| CreatePost.InferMediaKind | src/app/dashboard/blog/create/page.tsx:176-177 | image when the lowered URL ends with an image extension, video when it ends with a video extension but no image one, document otherwise |
| CreatePost.MediaKindByExtension | src/app/dashboard/blog/create/page.tsx:176-178 | the kind in terms of "some extension ends the URL": image for jpg/jpeg/png/gif, else video for mp4/webm/ogg, and document exactly when none does |
| CreatePost.UpperCaseExtensionIsImage | src/app/dashboard/blog/create/page.tsx:176 | the match ignores case: "a.PNG" is an image |
| CreatePost.EndsWithLast | src/app/dashboard/blog/create/page.tsx:176-177 | a suffix shares the string's last character |
| CreatePost.LastCharRulesOut | src/app/dashboard/blog/create/page.tsx:176-177 | if no extension ends in the string's last character, none ends the string |
| CreatePost.OtherLastCharMakesDocument | src/app/dashboard/blog/create/page.tsx:176-178 | a URL whose last character is not g, f, 4 or m in either case is a document |
| CreatePost.QueryStringMakesDocument | src/app/dashboard/blog/create/page.tsx:176-178 | the match is end-anchored: "clip.mp4?t=1" is a document |
| CreatePost.MediaFromUrl | src/app/dashboard/blog/create/page.tsx:173-181 | an empty URL clears the media; any other URL is kept with its inferred kind |
| CreatePost.ShownUrl | src/app/dashboard/blog/create/page.tsx:172 | the input shows the media's URL, or "" without media |
| CreatePost.ShownUrlRoundTrip | src/app/dashboard/blog/create/page.tsx:172-181 | the input shows back exactly the URL that was typed |
| CreatePost.SubmitBlocker | src/app/dashboard/blog/create/page.tsx:32-40 | a missing or empty token blocks with "Please log in to create a post" whatever the status; then a status other than posted or draft blocks with "Invalid status value"; nothing else blocks |
| CreatePost.SubmitError | src/app/dashboard/blog/create/page.tsx:30-76 | the submit succeeds exactly when no check blocks and an ok response parses; a blocker's message comes first; a non-ok response shows the server's message or "Failed to create post"; a network or parse failure shows its own message or "Something went wrong"; an error is never empty |
| CreatePost.CreatePostForm.constructor | src/app/dashboard/blog/create/page.tsx:13-21 | empty title and body, category "Tech", status "posted", no media, no messages |
| CreatePost.CreatePostForm.SetMediaUrl | src/app/dashboard/blog/create/page.tsx:173-182 | the media becomes the one the URL gives, and the input shows the URL back |
| CreatePost.CreatePostForm.HandleSubmit | src/app/dashboard/blog/create/page.tsx:24-77 | a request goes out exactly when the handler's token and status checks pass, carrying the form's fields; exactly one of error and success is set afterwards; `loading` ends false; each success adds one pending navigation |
| CreatePost.CreatePostForm.BrowserBlocksSubmit | src/app/dashboard/blog/create/page.tsx:112-223 | the browser refuses the submit while loading, while the title or the content is empty, or while a non-empty media URL is one the browser does not accept; it lets through every other submit |
| CreatePost.CreatePostForm.PressSubmit | src/app/dashboard/blog/create/page.tsx:222-223 | a refused submit sends nothing and changes nothing; any other has the handler's whole effect: the same payload, error, success text, pending navigation and unchanged fields |
| CreatePost.CreatePostForm.NavigationTimerFires | src/app/dashboard/blog/create/page.tsx:69-71 | one pending navigation goes off and pushes the post list |
| AuthGate.EmptyTokenIsNotAuthenticated | src/app/dashboard/layout.tsx:26-27 | `AuthGate.IsAuthenticated`, the `!!token` test: a missing or empty token is not authenticated, a non-empty one is |
| AuthGate.Tick | src/app/dashboard/layout.tsx:37-47 | a tick never goes below 0, redirects exactly when it reaches 0, which happens exactly when the count was at most 1, and otherwise takes one off |
| AuthGate.Run | src/app/dashboard/layout.tsx:36-49 | no tick yet leaves the starting count; after any tick a countdown still running is positive |
| AuthGate.CountdownFrom | src/app/dashboard/layout.tsx:37-47 | from n ≥ 1, after k < n ticks the count is n − k, and from the n-th tick on the redirect has happened |
| AuthGate.FiveTicksToRedirect | src/app/dashboard/layout.tsx:18 | from 5, the first four ticks leave a positive count and the fifth redirects |
| AuthGate.AuthLayout.constructor | src/app/dashboard/layout.tsx:16-19 | status unknown, count 5, no redirect, no timer |
| AuthGate.AuthLayout.View | src/app/dashboard/layout.tsx:61-111 | an unknown status shows the check screen, `false` the access-denied screen with the current count, `true` the full layout |
| AuthGate.AuthLayout.CheckAuth | src/app/dashboard/layout.tsx:24-35 | the status becomes the token test, and the interval starts exactly for an unauthenticated visitor before any redirect |
| AuthGate.AuthLayout.TimerTick | src/app/dashboard/layout.tsx:36-49 | the count follows `Tick`; the redirect is scheduled on the fifth tick, once, and the interval stops; the invariant keeps the interval running only for an unauthenticated visitor with a positive count |
| AuthGate.AuthLayout.RedirectTimerFires | src/app/dashboard/layout.tsx:42-44 | the deferred navigation goes to /login |
| AuthGate.AuthLayout.Logout | src/app/dashboard/layout.tsx:55-58 | the token is removed and /login is pushed |
| Login.LoginOutcome | src/app/login/page.tsx:30-73 | a login happens exactly when a response below 500 says `success` and carries `data`, storing its token; a falsy `success` shows the server's message or "Login failed"; `success` without data is unexpected; a 5xx, no response and a setup failure get the catch messages; the message is never empty |
| Login.InvalidCredentialsFallbackOnlyOnServerError | src/app/login/page.tsx:47-61 | the "Invalid email or password" fallback can appear only for a 5xx response, unless the server sent that very text |
| Login.LoginForm.constructor | src/app/login/page.tsx:23-28 | empty fields, not loading, no error, the given stored token, no navigation |
| Login.LoginForm.HandleSubmit | src/app/login/page.tsx:30-73 | once the handler runs, the request carries the entered credentials; a login stores exactly the returned token and pushes /dashboard; a failure leaves the token and the navigation alone and sets the message; `isLoading` ends false |
| Login.LoginForm.BrowserBlocksSubmit | src/app/login/page.tsx:113-160 | the browser refuses the submit while loading or while the email or the password is empty |
| Login.LoginForm.PressSubmit | src/app/login/page.tsx:159-160 | a refused submit sends nothing and changes nothing; any other has the handler's whole effect: the credentials sent, the token and navigation on a login, the message alone on a failure, the fields kept |
| Register.RegisterOutcome | src/app/register/page.tsx:26-44 | registered exactly when a 2xx response says `success`; a falsy `success` shows the server's message or "Registration failed"; a rejection shows the response's truthy message or "Registration failed. Please try again." |
| Register.RegisterForm.constructor | src/app/register/page.tsx:8-14 | empty fields, not loading, no messages, no pending navigation |
| Register.RegisterForm.HandleSubmit | src/app/register/page.tsx:17-48 | a request goes out exactly when the passwords agree, always with role "user"; a mismatch shows "Passwords do not match" and changes nothing else; otherwise exactly one message is set, each success adds one pending navigation, and `isLoading` ends false |
| Register.RegisterForm.BrowserBlocksSubmit | src/app/register/page.tsx:89-142 | the browser refuses the submit while loading or while any of the four fields is empty |
| Register.RegisterForm.PressSubmit | src/app/register/page.tsx:141-142 | a refused submit sends nothing and changes nothing; any other has the handler's whole effect: the mismatch gate, the payload, the messages, the added pending navigation on success and the fields kept |
| Register.RegisterForm.NavigationTimerFires | src/app/register/page.tsx:35 | one pending navigation goes off and pushes /login |
| ForgotPassword.ResetOutcome | src/app/forgot-password/page.tsx:21-37 | an ok response sets the message (the server's or the reset-link text); a non-ok one sets the error (the server's or "Something went wrong."); a network or parse failure sets the network text; exactly one notice is non-empty |
| ForgotPassword.SuccessNoticeIffOk | src/app/forgot-password/page.tsx:28-31 | the success notice shows exactly when an ok response parsed |
| ForgotPassword.ForgotPasswordForm.constructor | src/app/forgot-password/page.tsx:7-10 | empty email, not loading, no notices |
| ForgotPassword.ForgotPasswordForm.SubmitDisabled | src/app/forgot-password/page.tsx:54 | the button is enabled only when not loading and with a non-empty email, and disabled in every other case |
| ForgotPassword.ForgotPasswordForm.HandleSubmit | src/app/forgot-password/page.tsx:16-38 | the request carries the email; the notices become the outcome's; `loading` ends false |
| ForgotPassword.ForgotPasswordForm.PressSubmit | src/app/forgot-password/page.tsx:54 | a press does nothing while loading or with an empty email; any other sends the typed, non-empty email, keeps it in the field, sets the outcome's notices and ends not loading |
| Newsletter.NewsletterForm.constructor | src/app/components/Newsletter.tsx:6-8 | empty email, no notice, no error, no timer |
| Newsletter.NewsletterForm.HandleSubmit | src/app/components/Newsletter.tsx:10-20 | an empty email sets "Please enter your email." and leaves the notice, the field and the timers alone; otherwise the notice shows, one reset timer starts and the field empties; while the notice shows a reset is pending |
| Newsletter.NewsletterForm.ResetTimerFires | src/app/components/Newsletter.tsx:18 | the notice goes away and nothing else changes |
| Profile.LoadedProfile | src/app/dashboard/profile/page.tsx:21-26 | a profile is delivered exactly when a 2xx response carries `data` |
| Profile.ImageField | src/app/dashboard/profile/page.tsx:26 | the image field is the returned image when truthy, else "" |
| Profile.ProfileView.constructor | src/app/dashboard/profile/page.tsx:6-11 | blank profile, empty fields, loading, no messages |
| Profile.ProfileView.FetchProfile | src/app/dashboard/profile/page.tsx:17-32 | a delivered profile is stored and copied into the name and image fields with no error; any failure shows "Failed to load profile" and keeps the fields; `loading` ends false |
| Profile.ProfileView.HandleUpdate | src/app/dashboard/profile/page.tsx:34-49 | the request carries the name and image fields; a saved update shows "Profile updated successfully" and then has the refetch's full effect on the profile, the name, the image and the error; a failed one shows "Failed to update profile" and changes nothing else |
| Sidebar.MenuItems | src/app/dashboard/Sidebar.tsx:73-83 | three items: Dashboard active on exactly "/dashboard", My Blogs on any path starting "/dashboard/blog" and carrying the count, Profile on exactly "/dashboard/profile"; `Text.StartsWith` models `startsWith` |
| Sidebar.AtMostOneActive | src/app/dashboard/Sidebar.tsx:73-83 | no path makes two of the three items active |
| Sidebar.EachItemActiveOnItsOwnPath | src/app/dashboard/Sidebar.tsx:73-83 | on the path an item links to, that item alone is active |
| Sidebar.BadgeShown | src/app/dashboard/Sidebar.tsx:135 | a badge shows exactly for an item that has a count, and only when not loading |
| Sidebar.OnlyMyBlogsHasBadge | src/app/dashboard/Sidebar.tsx:135 | a count badge shows on My Blogs alone, and only when not loading |
| Sidebar.DeliveredCount | src/app/dashboard/Sidebar.tsx:59-64 | a 2xx response's `data.count` when present, and 0 for every failure |
| Sidebar.SidebarState.constructor | src/app/dashboard/Sidebar.tsx:47-49 | the given path, a count of 0, loading |
| Sidebar.SidebarState.Items | src/app/dashboard/Sidebar.tsx:73-83 | three items for the current path, each with its label and link: Dashboard active on exactly "/dashboard", My Blogs on paths starting "/dashboard/blog" and carrying the count, Profile on exactly "/dashboard/profile"; at most one is active |
| Sidebar.SidebarState.FetchPostCount | src/app/dashboard/Sidebar.tsx:52-68 | the count becomes the delivered count, 0 on any failure; `loading` ends false |

## Left out

- HTTP transport, URLs, headers, query parameters and JSON encoding: each call is an input outcome, and the backend is not part of this model.
- `localStorage`, `router.push`, `window.location.reload`, `alert` and `confirm` are plain fields or inputs: the stored token, a navigation history, a reload flag, the last alert, and a boolean answer.
- Timers are explicit events (`TimerTick`, `RedirectTimerFires`, `NavigationTimerFires`, `ResetTimerFires`), not real time. The effect's cleanup of the interval on unmount is not modelled.
- Unawaited refetches (after a like, a comment, a delete or a profile update) are modelled as finishing before the handler returns. Interleaving of overlapping requests, where the last response wins, is not modelled.
- JSX, styling, icons, date formatting and the body-preview `substring`.
- `toLowerCase` and the regular expressions' `i` flag act on ASCII letters only; Unicode case mapping is not modelled.
- An axios response body that is not an envelope object is modelled only as "no envelope" (`None`): reading a field of it reads `undefined`. Bodies that are JSON `null` or other non-objects are not told apart.
- A `fetch` reply that parses is always an envelope object. A JSON `null` or non-object body, where reading `data.message` would throw, is not modelled.
- The browser's `type="email"` format check on the login, register, forgot-password and newsletter fields is not modelled; only its `required` part is, for the login and register forms.
- CreatePost.CreatePostForm.BrowserBlocksSubmit: the `type="url"` syntax check on the media field is an input (`urlAccepted`, the browser's verdict on the field's text); the URL grammar itself is not modelled.
- Because every handler finishes before the next event, `loading` is always false when a submit is pressed. The `disabled={loading}` gates are modelled, but in the model they never refuse a submit.
- Login.LoginOutcome: a success whose `data` object lacks `token` is not modelled; the source would then store the text "undefined".
- AdminDashboard.AdminView.FetchStats: the stats object is taken as given. A `data` missing from the response makes `stats` undefined, which the render would then fail to read; the model stops at setting `None`.
- Profile.ProfileView.FetchProfile: a 2xx response without `data` sets the profile to `None`, and the page that would then fail to render is not modelled.
- Edit handlers that only navigate (`handleEdit`, `handleView`) and the sidebar toggles.
- src/app/dashboard/AdminHeader.tsx, src/app/components/Header.tsx, src/app/components/EmailInput.tsx, the layouts, the footers and the type files hold presentation or navigation glue only.
- The post edit page, the reset-password page and the e-mail verification page are not part of this model.
- Concurrency is outside the model; so are floating point and the clock.

## Behaviour of the code worth knowing

- A successful like or comment refetches the whole list in the public feed and reloads the page in the owner's list. The like count in the response is not used, and a failed like or comment changes nothing.
- No like or comment handler checks for a token before sending.
- A successful delete in the owner's list drops every post with that id. It does not use the response.
- The owner's list fetch does not look at the response's `success` flag.
- The create form's handler checks only the token and the status. The page's `required` title and content fields, its `type="url"` media field and its `disabled={loading}` button gate the submit before the handler runs (`CreatePost.CreatePostForm.PressSubmit`).
- The login and register handlers check nothing about the fields beyond the password confirmation. Their `required` fields and `disabled={isLoading}` buttons gate the submit (`PressSubmit` in each form).
- The newsletter's email field is `required`, so the browser refuses an empty email before the handler's own empty-email check runs. The model keeps the handler's check.
- No liked-post set is kept anywhere.
