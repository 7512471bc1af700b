/** The dashboard layout's authentication gate (src/app/dashboard/layout.tsx):
    a token check at mount, a one-second countdown from 5 for visitors without
    a token, one deferred redirect to the login page, and logout. */
module AuthGate {
  import opened Http

  /** `!!token`: a stored token counts only when it is present and non-empty. */
  predicate IsAuthenticated(token: Option<string>) {
    Truthy(token)
  }

  lemma EmptyTokenIsNotAuthenticated()
    ensures !IsAuthenticated(Some(""))
    ensures !IsAuthenticated(None)
    ensures IsAuthenticated(Some("t"))
  {
  }

  /** One tick of the interval: the updater passed to `setCountdown`, and
      whether it cleared the interval and scheduled the redirect. */
  datatype TickResult = TickResult(next: int, redirect: bool)

  function Tick(prev: int): (r: TickResult)
    ensures r.next >= 0
    ensures r.redirect <==> r.next == 0
    ensures r.redirect <==> prev <= 1
    ensures !r.redirect ==> r.next == prev - 1
  {
    if prev <= 1 then TickResult(0, true) else TickResult(prev - 1, false)
  }

  /** Where the countdown stands after `k` ticks from `n`; once the interval
      is cleared no further tick arrives. */
  datatype Countdown = Counting(value: int) | Redirected

  function Run(n: int, k: nat): (c: Countdown)
    ensures k == 0 ==> c == Counting(n)
    ensures k > 0 && c.Counting? ==> c.value >= 1
  {
    if k == 0 then Counting(n)
    else match Run(n, k - 1)
      case Redirected => Redirected
      case Counting(v) => if Tick(v).redirect then Redirected else Counting(Tick(v).next)
  }

  /** From `n >= 1`, each of the first `n - 1` ticks takes one off the count,
      and the `n`-th tick redirects. */
  lemma {:induction false} CountdownFrom(n: int, k: nat)
    requires n >= 1
    ensures k < n ==> Run(n, k) == Counting(n - k)
    ensures k >= n ==> Run(n, k) == Redirected
  {
    if k > 0 {
      CountdownFrom(n, k - 1);
    }
  }

  /** Starting from 5, the redirect comes with the fifth tick and not before. */
  lemma FiveTicksToRedirect()
    ensures forall k: nat :: k < 5 ==> Run(5, k).Counting? && Run(5, k).value >= 1
    ensures Run(5, 5) == Redirected
  {
    forall k: nat | k < 5 ensures Run(5, k).Counting? && Run(5, k).value >= 1 {
      CountdownFrom(5, k);
    }
    CountdownFrom(5, 5);
  }

  /** The three screens the layout renders. */
  datatype View = Checking | AccessDenied(countdown: int) | FullLayout

  class AuthLayout {
    var storedToken: Option<string>     // `localStorage["token"]`
    var isAuthenticated: Option<bool>   // `null` until checked
    var countdown: int
    var hasRedirected: bool             // the `hasRedirected` ref
    var timerRunning: bool              // the one-second interval is set
    var redirectPending: bool           // the zero-delay redirect timeout is set
    var redirectsScheduled: nat         // how many times the interval scheduled it
    var navigatedTo: seq<string>        // every `router.push`, oldest first
    ghost var ticks: nat                // interval ticks so far

    /** The interval runs only for a visitor known to be unauthenticated,
        before the redirect, with a positive count; once the redirect is
        scheduled the count is 0, and it has been scheduled exactly once.
        The count is always where `Run` from 5 puts it after `ticks` ticks. */
    ghost predicate Valid()
      reads this
    {
      && 0 <= countdown <= 5
      && (timerRunning ==> isAuthenticated == Some(false) && !hasRedirected && countdown >= 1)
      && (hasRedirected ==> !timerRunning && countdown == 0)
      && redirectsScheduled == (if hasRedirected then 1 else 0)
      && (redirectPending ==> hasRedirected)
      && Run(5, ticks) == (if hasRedirected then Redirected else Counting(countdown))
    }

    constructor (token: Option<string>)
      ensures Valid()
      ensures storedToken == token && isAuthenticated == None && countdown == 5
      ensures !hasRedirected && !timerRunning && !redirectPending && navigatedTo == []
    {
      storedToken, isAuthenticated, countdown := token, None, 5;
      hasRedirected, timerRunning, redirectPending := false, false, false;
      redirectsScheduled, navigatedTo := 0, [];
      ticks := 0;
    }

    /** `null` shows the check screen, `false` the access-denied screen with
        the current count, `true` the full layout. */
    function View(): (v: View)
      reads this
      ensures v == Checking <==> isAuthenticated.None?
      ensures v.AccessDenied? <==> isAuthenticated == Some(false)
      ensures v.AccessDenied? ==> v.countdown == countdown
      ensures v == FullLayout <==> isAuthenticated == Some(true)
    {
      match isAuthenticated
      case None => Checking
      case Some(false) => AccessDenied(countdown)
      case Some(true) => FullLayout
    }

    /** `checkAuth` at mount, followed by the countdown effect it triggers:
        the interval starts exactly when the visitor has no usable token and
        no redirect has happened yet. */
    method CheckAuth()
      requires Valid()
      requires isAuthenticated.None? && !timerRunning
      modifies this
      ensures Valid()
      ensures isAuthenticated == Some(IsAuthenticated(storedToken))
      ensures timerRunning <==> !IsAuthenticated(storedToken) && !hasRedirected
      ensures countdown == old(countdown) && hasRedirected == old(hasRedirected)
      ensures storedToken == old(storedToken) && navigatedTo == old(navigatedTo)
      ensures redirectPending == old(redirectPending) && redirectsScheduled == old(redirectsScheduled)
      ensures ticks == old(ticks)
    {
      isAuthenticated := Some(IsAuthenticated(storedToken));
      if isAuthenticated == Some(false) && !hasRedirected {
        timerRunning := true;
      }
    }

    /** One second passes while the interval is set. */
    method TimerTick()
      requires Valid() && timerRunning
      modifies this
      ensures Valid()
      ensures countdown == Tick(old(countdown)).next
      ensures hasRedirected == Tick(old(countdown)).redirect
      ensures timerRunning == !Tick(old(countdown)).redirect
      ensures redirectPending == (old(redirectPending) || Tick(old(countdown)).redirect)
      ensures redirectsScheduled == old(redirectsScheduled) + (if hasRedirected then 1 else 0)
      ensures storedToken == old(storedToken) && isAuthenticated == old(isAuthenticated)
      ensures navigatedTo == old(navigatedTo)
      ensures ticks == old(ticks) + 1
      ensures hasRedirected <==> ticks == 5
      ensures !hasRedirected ==> countdown == 5 - ticks
    {
      CountdownFrom(5, ticks);
      CountdownFrom(5, ticks + 1);
      ticks := ticks + 1;
      var prev := countdown;
      if prev <= 1 {
        timerRunning := false;
        hasRedirected := true;
        redirectPending := true;
        redirectsScheduled := redirectsScheduled + 1;
        countdown := 0;
      } else {
        countdown := prev - 1;
      }
    }

    /** The zero-delay timeout set by the last tick goes off. */
    method RedirectTimerFires()
      requires Valid() && redirectPending
      modifies this`redirectPending, this`navigatedTo
      ensures Valid()
      ensures !redirectPending && navigatedTo == old(navigatedTo) + ["/login"]
    {
      redirectPending := false;
      navigatedTo := navigatedTo + ["/login"];
    }

    /** `handleLogout`: the token is removed and the login page pushed. */
    method Logout()
      requires Valid()
      modifies this`storedToken, this`navigatedTo
      ensures Valid()
      ensures storedToken == None && navigatedTo == old(navigatedTo) + ["/login"]
    {
      storedToken := None;
      navigatedTo := navigatedTo + ["/login"];
    }
  }
}
