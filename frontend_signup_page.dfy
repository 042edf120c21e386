/**
 * The signup page (frontend/src/pages/Signup.jsx): a six-field form kept
 * as one object, a password check before anything is sent, `loading`
 * around the awaited `signup`, and /dashboard on success.
 */
module SignupPage {
  import opened Common
  import opened Routing
  import opened AuthService
  import opened AuthContext
  import opened GoogleLoginButton

  /** The `name` of each input: lines 74, 91, 109, 123, 141 and 158. */
  const FormFields: set<string> := {"email", "password", "password2", "fullName", "phone", "role"}

  /** Lines 13-20. */
  const InitialForm: map<string, string> := map[
    "email" := "",
    "password" := "",
    "password2" := "",
    "fullName" := "",
    "phone" := "",
    "role" := "CANDIDATE"]

  const MismatchMessage := "Passwords don't match"

  lemma InitialFormDefaults()
    ensures InitialForm.Keys == FormFields
    ensures InitialForm["role"] == DefaultRole
    ensures forall k :: k in FormFields && k != "role" ==> InitialForm[k] == ""
  {
  }

  /** What `signup(formData)` reads from the form object. */
  function ToSignupData(form: map<string, string>): (d: SignupData)
    requires FormFields <= form.Keys
    ensures d.email == form["email"] && d.password == form["password"] && d.password2 == form["password2"]
    ensures d.fullName == form["fullName"] && d.role == form["role"] && d.phone == Some(form["phone"])
  {
    SignupData(form["email"], form["password"], form["password2"], form["fullName"], form["role"], Some(form["phone"]))
  }

  /** What a submit starts: the mismatch toast and nothing else, or the `signup` call. */
  datatype Submission = Rejected(toast: Toast) | Sent(call: AuthCall)

  /** Lines 32-42. */
  function BeginSignup(form: map<string, string>): (r: Submission)
    requires FormFields <= form.Keys
    ensures r.Rejected? <==> form["password"] != form["password2"]
    ensures r.Rejected? ==> r.toast == ErrorToast(MismatchMessage)
    ensures r.Sent? ==> r.call == SignupCall(ToSignupData(form))
  {
    if form["password"] != form["password2"] then Rejected(ErrorToast(MismatchMessage))
    else Sent(SignupCall(ToSignupData(form)))
  }

  /**
   * Lines 46-48: to /dashboard, adding a history entry, exactly when the
   * signup succeeded; the Google button navigates the same way.
   */
  function AfterSettle(result: AuthResult): (nav: Option<Navigation>)
    ensures nav.Some? <==> result.Success?
    ensures nav.Some? ==> nav.value == Navigation("/dashboard", false)
  {
    AfterGoogle(result)
  }

  /**
   * A signup request leaves the page only with two equal passwords, and its
   * body holds every field of the form under the backend's names.
   */
  lemma {:induction false} SentRequestCarriesForm(form: map<string, string>)
    requires FormFields <= form.Keys
    requires BeginSignup(form).Sent?
    ensures RequestFor(BeginSignup(form).call).body.Some?
    ensures RequestFor(BeginSignup(form).call).body.value["password"] == RequestFor(BeginSignup(form).call).body.value["password2"]
    ensures RequestFor(BeginSignup(form).call).body.value["full_name"] == form["fullName"]
    ensures RequestFor(BeginSignup(form).call).body.value["phone"] == form["phone"]
    ensures RequestFor(BeginSignup(form).call).body.value["role"] == form["role"]
    ensures RequestFor(BeginSignup(form).call).body.value["email"] == form["email"]
  {
    var d := ToSignupData(form);
    assert BeginSignup(form).call == SignupCall(d);
    assert RequestFor(SignupCall(d)) == SignupRequest(d);
  }

  /** The page's state: the form object and the `loading` flag. */
  class SignupForm {
    var formData: map<string, string>
    var loading: bool

    ghost predicate Valid()
      reads this
    {
      FormFields <= formData.Keys
    }

    /** Lines 13-21. */
    constructor()
      ensures Valid() && formData == InitialForm && !loading
    {
      formData := InitialForm;
      loading := false;
    }

    /** Lines 25-30: the named field takes the input's value; every other field stays. */
    method HandleChange(name: string, value: string)
      requires Valid()
      modifies this
      ensures Valid()
      ensures formData == old(formData)[name := value] && loading == old(loading)
    {
      formData := formData[name := value];
    }

    /**
     * Lines 32-42 up to the await. With different passwords only the toast
     * comes out: no call, `loading` untouched. The submit button is
     * disabled while loading (line 174), so a submit then does nothing.
     */
    method BeginSubmit() returns (call: Option<AuthCall>, toast: Option<Toast>)
      requires Valid()
      modifies this
      ensures Valid() && formData == old(formData)
      ensures old(loading) ==> call.None? && toast.None? && loading
      ensures !old(loading) && BeginSignup(formData).Rejected? ==> call.None? && toast == Some(BeginSignup(formData).toast) && !loading
      ensures !old(loading) && BeginSignup(formData).Sent? ==> call == Some(BeginSignup(formData).call) && toast.None? && loading
    {
      call, toast := None, None;
      if !loading {
        if formData["password"] != formData["password2"] {
          toast := Some(ErrorToast(MismatchMessage));
        } else {
          loading := true;
          call := Some(SignupCall(ToSignupData(formData)));
        }
      }
    }

    /** Lines 44-48, once `signup` has settled. */
    method Settle(result: AuthResult) returns (nav: Option<Navigation>)
      requires Valid()
      modifies this
      ensures Valid() && formData == old(formData) && !loading
      ensures nav == AfterSettle(result)
    {
      loading := false;
      nav := None;
      if result.Success? {
        nav := Some(Navigation("/dashboard", false));
      }
    }

    /** Lines 32-49 with the auth context's `signup` settling with `outcome`. */
    method HandleSubmit(auth: AuthProvider, outcome: Outcome<AuthResponse, ServiceError>)
      returns (call: Option<AuthCall>, toast: Option<Toast>, nav: Option<Navigation>)
      requires Valid()
      modifies this, auth
      ensures Valid() && formData == old(formData)
      ensures call.Some? <==> !old(loading) && BeginSignup(formData).Sent?
      ensures call.None? ==> nav.None? && loading == old(loading) && auth.Current() == old(auth.Current())
      ensures call.None? && !old(loading) ==> toast == Some(ErrorToast(MismatchMessage))
      ensures call.Some? ==> call.value == SignupCall(ToSignupData(formData)) && !loading
      ensures call.Some? ==> auth.Current() == AfterSignup(old(auth.Current()), outcome).session
      ensures call.Some? ==> nav == AfterSettle(AfterSignup(old(auth.Current()), outcome).result)
    {
      call, toast := BeginSubmit();
      nav := None;
      if call.Some? {
        var issued, result, authToast := auth.Signup(ToSignupData(formData), outcome);
        toast := Some(authToast);
        nav := Settle(result);
      }
    }

    /** Line 190: the Google button takes the role currently chosen in the form. */
    method GoogleButtonFor() returns (button: GoogleButton)
      requires Valid()
      ensures fresh(button) && button.role == formData["role"] && !button.loading
    {
      button := new GoogleButton(Some(formData["role"]));
    }
  }
}
