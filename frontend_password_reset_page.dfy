/**
 * The "forgot password" page (frontend/src/pages/PasswordReset.jsx): one
 * email input; once a request has gone through, the form gives way to a
 * confirmation naming that email.
 */
module PasswordResetPage {
  import opened Common
  import opened Text
  import opened AuthService
  import opened AuthContext

  const SentMessage := "Password reset email sent!"
  const FailureFallback := "Failed to send reset email"

  /** Lines 21-25: the toast once the request has settled. */
  function RequestToast(outcome: Outcome<(), ServiceError>): (t: Toast)
    ensures t.SuccessToast? <==> outcome.Ok?
    ensures outcome.Ok? ==> t.message == SentMessage
    ensures outcome.Err? && ErrorText(outcome.error) != "" ==> t.message == ErrorText(outcome.error)
    ensures outcome.Err? && ErrorText(outcome.error) == "" ==> t.message == FailureFallback
    ensures t.message != ""
  {
    match outcome
    case Ok(_) => SuccessToast(SentMessage)
    case Err(e) => ErrorToast(FirstNonEmpty([ErrorText(e)], FailureFallback))
  }

  /** The page's state. */
  class PasswordResetForm {
    var email: string
    var loading: bool
    var sent: bool

    /** Lines 12-14. */
    constructor()
      ensures email == "" && !loading && !sent
    {
      email := "";
      loading := false;
      sent := false;
    }

    /** Line 47: the form is on screen until a request has gone through; after that, the confirmation is. */
    function ShowsForm(): (b: bool)
      reads this
      ensures b <==> !sent
    {
      !sent
    }

    /** Line 59. */
    method SetEmail(value: string)
      modifies this
      ensures email == value && loading == old(loading) && sent == old(sent)
    {
      email := value;
    }

    /**
     * Lines 16-21 up to the await. Only the form submits, and its button
     * is disabled while loading (line 70), so a submit without the form on
     * screen or while loading does nothing.
     */
    method BeginSubmit() returns (call: Option<AuthCall>)
      modifies this
      ensures email == old(email) && sent == old(sent)
      ensures call.Some? <==> !old(loading) && !old(sent)
      ensures call.Some? ==> call.value == RequestResetCall(email) && loading
      ensures call.None? ==> loading == old(loading)
    {
      call := None;
      if !loading && !sent {
        loading := true;
        call := Some(RequestResetCall(email));
      }
    }

    /** Lines 22-28: `sent` on success, `loading` off in any case. */
    method Settle(outcome: Outcome<(), ServiceError>) returns (toast: Toast)
      modifies this
      ensures email == old(email) && !loading
      ensures sent == (old(sent) || outcome.Ok?)
      ensures toast == RequestToast(outcome)
    {
      match outcome {
        case Ok(_) =>
          sent := true;
          toast := SuccessToast(SentMessage);
        case Err(error) =>
          toast := ErrorToast(FirstNonEmpty([ErrorText(error)], FailureFallback));
      }
      loading := false;
    }

    /**
     * Lines 16-29 with the service call settling with `outcome`: after a
     * success the form is gone and the confirmation shows the email that
     * was sent.
     */
    method HandleSubmit(outcome: Outcome<(), ServiceError>) returns (call: Option<AuthCall>, toast: Option<Toast>)
      modifies this
      ensures email == old(email)
      ensures call.Some? <==> !old(loading) && !old(sent)
      ensures call.None? ==> toast.None? && loading == old(loading) && sent == old(sent)
      ensures call.Some? ==> call.value == RequestResetCall(email) && !loading && toast == Some(RequestToast(outcome))
      ensures call.Some? ==> (sent <==> outcome.Ok?) && ShowsForm() == outcome.Err?
    {
      call := BeginSubmit();
      toast := None;
      if call.Some? {
        var t := Settle(outcome);
        toast := Some(t);
      }
    }
  }
}
