/** The forgot-password form (src/app/forgot-password/page.tsx): a button
    disabled while sending or while the email is empty, and the notice each
    outcome of the `POST` shows. Messages are strings, "" meaning none. */
module ForgotPassword {
  import opened Http

  /** The two notices after a submit: the green `message` and the red `error`. */
  datatype Notices = Notices(message: string, error: string)

  /** What a submit ends in. A failed fetch and a body that is not JSON both
      throw, and the catch shows the same network message. */
  function ResetOutcome(reply: FetchReply<()>): (r: Notices)
    ensures reply.Replied? && reply.json.Parsed? && IsOk(reply.status) ==>
              r == Notices(OrElse(reply.json.envelope.message, "Password reset link sent to your email."), "")
    ensures reply.Replied? && reply.json.Parsed? && !IsOk(reply.status) ==>
              r == Notices("", OrElse(reply.json.envelope.message, "Something went wrong."))
    ensures !(reply.Replied? && reply.json.Parsed?) ==> r == Notices("", "Network error. Please try again later.")
    ensures (r.message != "") != (r.error != "")
  {
    match reply
    case Replied(status, Parsed(envelope)) =>
      if IsOk(status) then Notices(OrElse(envelope.message, "Password reset link sent to your email."), "")
      else Notices("", OrElse(envelope.message, "Something went wrong."))
    case _ => Notices("", "Network error. Please try again later.")
  }

  /** A success notice is shown exactly when the server answered with an ok status. */
  lemma SuccessNoticeIffOk(reply: FetchReply<()>)
    ensures ResetOutcome(reply).message != "" <==> reply.Replied? && reply.json.Parsed? && IsOk(reply.status)
  {
  }

  class ForgotPasswordForm {
    var email: string
    var loading: bool
    var message: string
    var error: string

    constructor ()
      ensures email == "" && !loading && message == "" && error == ""
    {
      email, loading, message, error := "", false, "", "";
    }

    /** `disabled={loading || !form.email}`. */
    predicate SubmitDisabled()
      reads this
      ensures !SubmitDisabled() ==> !loading && email != ""
      ensures loading || email == "" ==> SubmitDisabled()
    {
      loading || email == ""
    }

    /** `handleSubmit`: both notices are cleared first, then exactly one is set;
        `loading` ends false. `sent` is the email the request carries. */
    method HandleSubmit(reply: FetchReply<()>) returns (sent: string)
      modifies this
      ensures sent == email && email == old(email)
      ensures Notices(message, error) == ResetOutcome(reply)
      ensures !loading
    {
      loading := true;
      error := "";
      message := "";
      sent := email;
      match reply {
        case Replied(status, Parsed(envelope)) =>
          if IsOk(status) {
            message := OrElse(envelope.message, "Password reset link sent to your email.");
          } else {
            error := OrElse(envelope.message, "Something went wrong.");
          }
        case Replied(_, Unparsable(_)) =>
          error := "Network error. Please try again later.";
        case NetworkError(_) =>
          error := "Network error. Please try again later.";
      }
      loading := false;
    }

    /** A press of the submit button: a disabled button sends nothing and
        changes nothing. */
    method PressSubmit(reply: FetchReply<()>) returns (sent: Option<string>)
      modifies this
      ensures sent.Some? <==> !old(SubmitDisabled())
      ensures sent.None? ==> unchanged(this)
      ensures sent.Some? ==>
                sent.value == old(email) && email == old(email) && sent.value != ""
                && Notices(message, error) == ResetOutcome(reply) && !loading
    {
      if SubmitDisabled() {
        sent := None;
      } else {
        var e := HandleSubmit(reply);
        sent := Some(e);
      }
    }
  }
}
