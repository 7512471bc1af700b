/** The registration form (src/app/register/page.tsx): a password
    confirmation check before any request, a request that always asks for the
    "user" role, and the message each outcome shows. */
module Register {
  import opened Http

  datatype RegisterResult = Registered | RegisterFailed(message: string)

  /** What a sent request ends in. The catch shows the server's message only
      when the error carries a response with a truthy message. */
  function RegisterOutcome(x: Exchange<()>): (r: RegisterResult)
    ensures r == Registered <==> x.Answered? && IsOk(x.status) && x.body.Some? && x.body.value.success
    ensures x.Answered? && IsOk(x.status) && !(x.body.Some? && x.body.value.success) ==>
              r == RegisterFailed(OrElse(MessageOf(x.body), "Registration failed"))
    ensures x.Answered? && !IsOk(x.status) ==>
              r == RegisterFailed(OrElse(MessageOf(x.body), "Registration failed. Please try again."))
    ensures !x.Answered? ==> r == RegisterFailed("Registration failed. Please try again.")
    ensures r.RegisterFailed? ==> r.message != ""
  {
    match Axios(x, Only2xx)
    case Fulfilled(_, body) =>
      if body.Some? && body.value.success then Registered
      else RegisterFailed(OrElse(MessageOf(body), "Registration failed"))
    case Rejected(t) =>
      if t.AxiosResponse? && Truthy(t.message) then RegisterFailed(t.message.value)
      else RegisterFailed("Registration failed. Please try again.")
  }

  /** The request body. */
  datatype Registration = Registration(name: string, email: string, password: string, role: string)

  class RegisterForm {
    var name: string
    var email: string
    var password: string
    var confirmPassword: string
    var isLoading: bool
    var error: Option<string>
    var success: Option<string>
    var navigationPending: nat        // 2-second timers to the login page not yet gone off
    var navigatedTo: seq<string>      // every `router.push`, oldest first

    constructor ()
      ensures name == "" && email == "" && password == "" && confirmPassword == ""
      ensures !isLoading && error == None && success == None
      ensures navigationPending == 0 && navigatedTo == []
    {
      name, email, password, confirmPassword := "", "", "", "";
      isLoading, error, success := false, None, None;
      navigationPending, navigatedTo := 0, [];
    }

    /** `handleSubmit`. `sent` is the request body when a request went out: it
        goes out exactly when the two passwords agree, and then always with the
        "user" role. After a mismatch nothing but the messages changes. */
    method HandleSubmit(x: Exchange<()>) returns (sent: Option<Registration>)
      modifies this
      ensures sent.Some? <==> password == confirmPassword
      ensures sent.Some? ==> sent.value == Registration(name, email, password, "user")
      ensures password != confirmPassword ==>
                error == Some("Passwords do not match") && success == None
                && isLoading == old(isLoading) && navigationPending == old(navigationPending)
      ensures password == confirmPassword ==> !isLoading
      ensures password == confirmPassword && RegisterOutcome(x) == Registered ==>
                error == None
                && success == Some("Registration successful! Please check your email to verify your account.")
                && navigationPending == old(navigationPending) + 1
      ensures password == confirmPassword && RegisterOutcome(x).RegisterFailed? ==>
                error == Some(RegisterOutcome(x).message) && success == None
                && navigationPending == old(navigationPending)
      ensures name == old(name) && email == old(email) && password == old(password)
      ensures confirmPassword == old(confirmPassword) && navigatedTo == old(navigatedTo)
    {
      error := None;
      success := None;
      sent := None;
      if password != confirmPassword {
        error := Some("Passwords do not match");
        return;
      }
      isLoading := true;
      sent := Some(Registration(name, email, password, "user"));
      match Axios(x, Only2xx) {
        case Fulfilled(_, body) =>
          if body.Some? && body.value.success {
            success := Some("Registration successful! Please check your email to verify your account.");
            navigationPending := navigationPending + 1;
          } else {
            error := Some(OrElse(MessageOf(body), "Registration failed"));
          }
        case Rejected(t) =>
          if t.AxiosResponse? && Truthy(t.message) {
            error := Some(t.message.value);
          } else {
            error := Some("Registration failed. Please try again.");
          }
      }
      isLoading := false;
    }

    /** The browser's own gate on the form: the submit button is
        `disabled={isLoading}`, and all four fields are `required`. */
    predicate BrowserBlocksSubmit()
      reads this
      ensures !BrowserBlocksSubmit() ==> !isLoading && name != "" && email != "" && password != "" && confirmPassword != ""
      ensures isLoading || name == "" || email == "" || password == "" || confirmPassword == "" ==> BrowserBlocksSubmit()
    {
      isLoading || name == "" || email == "" || password == "" || confirmPassword == ""
    }

    /** Submitting the form: a blocked submit never reaches `handleSubmit`,
        sends nothing and changes nothing; any other has the handler's whole
        effect. */
    method PressSubmit(x: Exchange<()>) returns (sent: Option<Registration>)
      modifies this
      ensures old(BrowserBlocksSubmit()) ==> sent.None? && unchanged(this)
      ensures !old(BrowserBlocksSubmit()) ==>
                (sent.Some? <==> password == confirmPassword)
                && (sent.Some? ==> sent.value == Registration(name, email, password, "user"))
                && (password != confirmPassword ==>
                      error == Some("Passwords do not match") && success == None
                      && isLoading == old(isLoading) && navigationPending == old(navigationPending))
                && (password == confirmPassword ==> !isLoading)
                && (password == confirmPassword && RegisterOutcome(x) == Registered ==>
                      error == None
                      && success == Some("Registration successful! Please check your email to verify your account.")
                      && navigationPending == old(navigationPending) + 1)
                && (password == confirmPassword && RegisterOutcome(x).RegisterFailed? ==>
                      error == Some(RegisterOutcome(x).message) && success == None
                      && navigationPending == old(navigationPending))
                && name == old(name) && email == old(email) && password == old(password)
                && confirmPassword == old(confirmPassword) && navigatedTo == old(navigatedTo)
    {
      if BrowserBlocksSubmit() {
        sent := None;
      } else {
        sent := HandleSubmit(x);
      }
    }

    /** One 2-second timer set after a successful registration goes off. */
    method NavigationTimerFires()
      requires navigationPending > 0
      modifies this`navigationPending, this`navigatedTo
      ensures navigationPending == old(navigationPending) - 1
      ensures navigatedTo == old(navigatedTo) + ["/login"]
    {
      navigationPending := navigationPending - 1;
      navigatedTo := navigatedTo + ["/login"];
    }
  }
}
