/**
 * The "set new password" page (frontend/src/pages/PasswordResetConfirm.jsx):
 * it takes `uid` and `token` from the route, checks that the two new
 * passwords agree, and sends all four to the backend.
 */
module PasswordResetConfirmPage {
  import opened Common
  import opened Text
  import opened AuthService
  import opened AuthContext
  import App

  const SuccessMessage := "Password reset successful!"
  const FailureFallback := "Failed to reset password"
  const MismatchMessage := "Passwords don't match"

  /** Lines 30-34: the toast once the request has settled. */
  function ConfirmToast(outcome: Outcome<(), ServiceError>): (t: Toast)
    ensures t.SuccessToast? <==> outcome.Ok?
    ensures outcome.Ok? ==> t.message == SuccessMessage
    ensures outcome.Err? && ErrorText(outcome.error) != "" ==> t.message == ErrorText(outcome.error)
    ensures outcome.Err? && ErrorText(outcome.error) == "" ==> t.message == FailureFallback
    ensures t.message != ""
  {
    match outcome
    case Ok(_) => SuccessToast(SuccessMessage)
    case Err(e) => ErrorToast(FirstNonEmpty([ErrorText(e)], FailureFallback))
  }

  /**
   * The page a reset link opens receives the link's two segments as they
   * stand, and a request from it carries them to the backend unchanged.
   */
  lemma {:induction false} LinkReachesBackend(uid: string, token: string, p1: string, p2: string)
    requires uid != "" && token != "" && '/' !in uid && '/' !in token
    ensures App.MatchRoute("/reset-password/" + uid + "/" + token) ==
              Some(App.Route(App.PublicOnly, App.PasswordResetConfirmPage(uid, token)))
    ensures RequestFor(ConfirmResetCall(uid, token, p1, p2)).body.value["uid"] == uid
    ensures RequestFor(ConfirmResetCall(uid, token, p1, p2)).body.value["token"] == token
  {
    App.ConfirmRouteBinds(uid, token);
    assert RequestFor(ConfirmResetCall(uid, token, p1, p2)) == ConfirmResetRequest(uid, token, p1, p2);
  }

  /** The page's state; `uid` and `token` are fixed by the route. */
  class PasswordResetConfirmForm {
    const uid: string
    const token: string
    var newPassword: string
    var newPassword2: string
    var loading: bool
    var success: bool

    /** Lines 12-17. */
    constructor(uid: string, token: string)
      ensures this.uid == uid && this.token == token
      ensures newPassword == "" && newPassword2 == "" && !loading && !success
    {
      this.uid := uid;
      this.token := token;
      newPassword := "";
      newPassword2 := "";
      loading := false;
      success := false;
    }

    /** Line 56: the form is on screen until the reset has gone through. */
    function ShowsForm(): (b: bool)
      reads this
      ensures b <==> !success
    {
      !success
    }

    /** Line 68. */
    method SetNewPassword(value: string)
      modifies this
      ensures newPassword == value && newPassword2 == old(newPassword2)
      ensures loading == old(loading) && success == old(success)
    {
      newPassword := value;
    }

    /** Line 84. */
    method SetNewPassword2(value: string)
      modifies this
      ensures newPassword2 == value && newPassword == old(newPassword)
      ensures loading == old(loading) && success == old(success)
    {
      newPassword2 := value;
    }

    /**
     * Lines 19-30 up to the await. Different passwords give only the
     * mismatch toast: no call, `loading` untouched. Only the form submits,
     * and its button is disabled while loading (line 96).
     */
    method BeginSubmit() returns (call: Option<AuthCall>, toast: Option<Toast>)
      modifies this
      ensures newPassword == old(newPassword) && newPassword2 == old(newPassword2) && success == old(success)
      ensures call.Some? <==> !old(loading) && !old(success) && newPassword == newPassword2
      ensures call.Some? ==> call.value == ConfirmResetCall(uid, token, newPassword, newPassword2) && loading && toast.None?
      ensures call.None? ==> loading == old(loading)
      ensures call.None? && !old(loading) && !old(success) ==> toast == Some(ErrorToast(MismatchMessage))
      ensures old(loading) || old(success) ==> toast.None?
    {
      call, toast := None, None;
      if !loading && !success {
        if newPassword != newPassword2 {
          toast := Some(ErrorToast(MismatchMessage));
        } else {
          loading := true;
          call := Some(ConfirmResetCall(uid, token, newPassword, newPassword2));
        }
      }
    }

    /** Lines 31-37: `success` on success, `loading` off in any case. */
    method Settle(outcome: Outcome<(), ServiceError>) returns (toast: Toast)
      modifies this
      ensures newPassword == old(newPassword) && newPassword2 == old(newPassword2) && !loading
      ensures success == (old(success) || outcome.Ok?)
      ensures toast == ConfirmToast(outcome)
    {
      match outcome {
        case Ok(_) =>
          success := true;
          toast := SuccessToast(SuccessMessage);
        case Err(error) =>
          toast := ErrorToast(FirstNonEmpty([ErrorText(error)], FailureFallback));
      }
      loading := false;
    }

    /** Lines 19-38 with the service call settling with `outcome`. */
    method HandleSubmit(outcome: Outcome<(), ServiceError>) returns (call: Option<AuthCall>, toast: Option<Toast>)
      modifies this
      ensures newPassword == old(newPassword) && newPassword2 == old(newPassword2)
      ensures call.Some? <==> !old(loading) && !old(success) && newPassword == newPassword2
      ensures call.None? ==> loading == old(loading) && success == old(success)
      ensures call.Some? ==> call.value == ConfirmResetCall(uid, token, newPassword, newPassword2)
      ensures call.Some? ==> !loading && toast == Some(ConfirmToast(outcome)) && (success <==> outcome.Ok?)
    {
      call, toast := BeginSubmit();
      if call.Some? {
        var t := Settle(outcome);
        toast := Some(t);
      }
    }
  }
}
