/** The newsletter box (src/app/components/Newsletter.tsx): an empty-email
    check, then a thank-you notice that a 3-second timer takes away again.
    No request is made. Messages are strings, "" meaning none. */
module Newsletter {

  class NewsletterForm {
    var email: string
    var submitted: bool
    var error: string
    var pendingResets: nat      // 3-second timers set and not yet gone off

    /** The thank-you notice never outlives the timers: while it shows, a
        reset is still to come. */
    predicate Valid()
      reads this
    {
      submitted ==> pendingResets > 0
    }

    constructor ()
      ensures Valid()
      ensures email == "" && !submitted && error == "" && pendingResets == 0
    {
      email, submitted, error, pendingResets := "", false, "", 0;
    }

    /** `handleSubmit`: the error is cleared first; an empty email only sets
        the error, any other email shows the notice, starts one reset timer
        and clears the field. `accepted` says which of the two happened. */
    method HandleSubmit() returns (accepted: bool)
      requires Valid()
      modifies this
      ensures Valid()
      ensures accepted <==> old(email) != ""
      ensures !accepted ==>
                error == "Please enter your email." && submitted == old(submitted)
                && email == old(email) && pendingResets == old(pendingResets)
      ensures accepted ==> error == "" && submitted && email == "" && pendingResets == old(pendingResets) + 1
    {
      error := "";
      if email == "" {
        error := "Please enter your email.";
        return false;
      }
      submitted := true;
      pendingResets := pendingResets + 1;
      email := "";
      return true;
    }

    /** One reset timer goes off: the notice is hidden and nothing else changes. */
    method ResetTimerFires()
      requires Valid() && pendingResets > 0
      modifies this`submitted, this`pendingResets
      ensures Valid()
      ensures !submitted && pendingResets == old(pendingResets) - 1
    {
      submitted := false;
      pendingResets := pendingResets - 1;
    }
  }
}
