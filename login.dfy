/** The login form (src/app/login/page.tsx): one `POST`, which axios resolves
    for every status below 500, then either the token is stored and the
    dashboard opened or one message is shown. */
module Login {
  import opened Http

  /** The `data` object of a successful login; the user record beside the
      token is not read. */
  datatype LoginData = LoginData(token: string)

  const LoginMessages := CatchMessages("Invalid email or password",
                                       "No response from server. Please try again later.",
                                       "An error occurred. Please try again.",
                                       "An unexpected error occurred")

  datatype LoginResult = LoggedIn(token: string) | LoginFailed(message: string)

  /** What a submit ends in. A response below 500 is judged by its `success`
      flag; `success` without a `data` object throws a TypeError, which the
      catch reports as unexpected. */
  function LoginOutcome(x: Exchange<LoginData>): (r: LoginResult)
    ensures r.LoggedIn? <==> x.Answered? && x.status < 500 && x.body.Some? && x.body.value.success && x.body.value.data.Some?
    ensures r.LoggedIn? ==> r.token == x.body.value.data.value.token
    ensures x.Answered? && x.status < 500 && !(x.body.Some? && x.body.value.success) ==>
              r == LoginFailed(OrElse(MessageOf(x.body), "Login failed"))
    ensures x.Answered? && x.status < 500 && x.body.Some? && x.body.value.success && x.body.value.data.None? ==>
              r == LoginFailed("An unexpected error occurred")
    ensures x.Answered? && x.status >= 500 ==> r == LoginFailed(OrElse(MessageOf(x.body), "Invalid email or password"))
    ensures x.NoAnswer? ==> r == LoginFailed("No response from server. Please try again later.")
    ensures x.NotSent? ==> r == LoginFailed("An error occurred. Please try again.")
    ensures r.LoginFailed? ==> r.message != ""
  {
    match Axios(x, Below500)
    case Fulfilled(_, body) =>
      if body.Some? && body.value.success then
        if body.value.data.Some? then LoggedIn(body.value.data.value.token)
        else LoginFailed(Classify(NotAxios, LoginMessages))
      else LoginFailed(OrElse(MessageOf(body), "Login failed"))
    case Rejected(t) => LoginFailed(Classify(t, LoginMessages))
  }

  /** Because statuses below 500 never reach the catch block, the fallback
      "Invalid email or password" is shown only for a server error (5xx)
      whose body carries no message: a rejected password (401) with no
      message shows "Login failed" instead. */
  lemma InvalidCredentialsFallbackOnlyOnServerError(x: Exchange<LoginData>)
    requires LoginOutcome(x) == LoginFailed("Invalid email or password")
    ensures (x.Answered? && x.status >= 500) || MessageOf(x.body) == Some("Invalid email or password")
  {
  }

  /** The request body. */
  datatype Credentials = Credentials(email: string, password: string)

  class LoginForm {
    var email: string
    var password: string
    var isLoading: bool
    var error: Option<string>
    var storedToken: Option<string>   // `localStorage["token"]`
    var navigatedTo: seq<string>      // every `router.push`, oldest first

    constructor (token: Option<string>)
      ensures email == "" && password == "" && !isLoading && error == None
      ensures storedToken == token && navigatedTo == []
    {
      email, password, isLoading, error := "", "", false, None;
      storedToken, navigatedTo := token, [];
    }

    /** `handleSubmit`: the handler itself checks nothing, so once it runs the
        request goes out; a login stores exactly the returned token and opens the
        dashboard, anything else leaves the stored token alone and sets one
        message. `isLoading` ends false. */
    method HandleSubmit(x: Exchange<LoginData>) returns (sent: Credentials)
      modifies this
      ensures sent == Credentials(email, password)
      ensures !isLoading
      ensures match LoginOutcome(x)
              case LoggedIn(t) =>
                storedToken == Some(t) && navigatedTo == old(navigatedTo) + ["/dashboard"] && error == None
              case LoginFailed(m) =>
                storedToken == old(storedToken) && navigatedTo == old(navigatedTo) && error == Some(m)
      ensures email == old(email) && password == old(password)
    {
      isLoading := true;
      error := None;
      sent := Credentials(email, password);
      match Axios(x, Below500) {
        case Fulfilled(_, body) =>
          if body.Some? && body.value.success {
            if body.value.data.Some? {
              storedToken := Some(body.value.data.value.token);
              navigatedTo := navigatedTo + ["/dashboard"];
            } else {
              error := Some(Classify(NotAxios, LoginMessages));
            }
          } else {
            error := Some(OrElse(MessageOf(body), "Login failed"));
          }
        case Rejected(t) =>
          error := Some(Classify(t, LoginMessages));
      }
      isLoading := false;
    }

    /** The browser's own gate on the form: the submit button is
        `disabled={isLoading}`, and both fields are `required`. */
    predicate BrowserBlocksSubmit()
      reads this
      ensures !BrowserBlocksSubmit() ==> !isLoading && email != "" && password != ""
      ensures isLoading || email == "" || password == "" ==> BrowserBlocksSubmit()
    {
      isLoading || email == "" || password == ""
    }

    /** Submitting the form: a blocked submit never reaches `handleSubmit`,
        sends nothing and changes nothing; any other has the handler's whole
        effect. */
    method PressSubmit(x: Exchange<LoginData>) returns (sent: Option<Credentials>)
      modifies this
      ensures old(BrowserBlocksSubmit()) ==> sent.None? && unchanged(this)
      ensures !old(BrowserBlocksSubmit()) ==>
                sent == Some(Credentials(email, password)) && !isLoading
                && (match LoginOutcome(x)
                    case LoggedIn(t) =>
                      storedToken == Some(t) && navigatedTo == old(navigatedTo) + ["/dashboard"] && error == None
                    case LoginFailed(m) =>
                      storedToken == old(storedToken) && navigatedTo == old(navigatedTo) && error == Some(m))
                && email == old(email) && password == old(password)
    {
      if BrowserBlocksSubmit() {
        sent := None;
      } else {
        var c := HandleSubmit(x);
        sent := Some(c);
      }
    }
  }
}
