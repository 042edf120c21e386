/**
 * The request serializers (backend/accounts/serializers.py). Each turns a
 * request body into validated data or into an error map keyed by field
 * name; DRF first runs the checks of the declared fields, and only when
 * none of them fails the serializer's own `validate`.
 *
 * The validators this model does not compute (`validate_password`, email
 * syntax, maximum lengths) are an oracle: `checks` holds what they report
 * for each field.
 */
module Serializers {
  import opened Common
  import opened Models

  /** A request body: field name to the text sent for it. */
  type Data = map<string, string>

  /** DRF's `serializer.errors`: field name to its messages. */
  type Errors = map<string, seq<string>>

  datatype Checked<+T> = Accepted(value: T) | Rejected(errors: Errors)

  const NonFieldErrors := "non_field_errors"
  const RequiredMessage := "This field is required."
  const BlankMessage := "This field may not be blank."
  const PasswordMismatch := "Password fields didn't match."
  const MissingCredentials := "Must include \"email\" and \"password\"."
  const InvalidCredentials := "Invalid email or password."
  const DisabledAccount := "User account is disabled."
  const NoSuchUser := "No user found with this email address."
  /** The unique-email message the model serializer derives from the model's `email` field (line 56 of models.py). */
  const EmailTaken := "User with this email already exists."

  /** A plain-string `ValidationError` raised in `validate` lands under `non_field_errors`. */
  function NonField(message: string): Errors {
    map[NonFieldErrors := [message]]
  }

  /** A choice field's message for a value outside its choices. */
  function InvalidChoice(value: string): string {
    "\"" + value + "\" is not a valid choice."
  }

  /** A row of the table together with its key. */
  datatype StoredUser = StoredUser(id: nat, record: UserRecord)

  /** Required character fields: a missing one is required, an empty one may not be blank. */
  function PresenceErrors(data: Data, required: set<string>): (e: Errors)
    ensures forall f :: f in e <==> f in required && (f !in data || data[f] == "")
    ensures forall f :: f in e ==> e[f] == if f in data then [BlankMessage] else [RequiredMessage]
  {
    map f | f in required && (f !in data || data[f] == "") :: if f in data then [BlankMessage] else [RequiredMessage]
  }

  /** The failures the oracle reports: a field validator speaks only for its own field. */
  function Reported(checks: Errors, fields: set<string>): (e: Errors)
    ensures forall f :: f in e <==> f in fields && f in checks && checks[f] != []
  {
    map f | f in fields && f in checks && checks[f] != [] :: checks[f]
  }

  /** A `role` outside HOST/CANDIDATE fails its choice field; a missing one takes the default later. */
  function RoleErrors(data: Data): (e: Errors)
    ensures e == map[] <==> "role" !in data || IsRoleChoice(data["role"])
    ensures e != map[] ==> e == map["role" := [InvalidChoice(data["role"])]]
  {
    if "role" in data && !IsRoleChoice(data["role"]) then
      var e := map["role" := [InvalidChoice(data["role"])]];
      assert "role" in e;
      e
    else map[]
  }

  /** The keys of the rows holding `email`. */
  function EmailKeys(rows: map<nat, UserRecord>, email: string): set<nat> {
    set k | k in rows && rows[k].email == email
  }

  predicate IsLeast(k: nat, s: set<nat>) {
    k in s && forall j :: j in s ==> k <= j
  }

  lemma {:induction false} LeastExists(s: set<nat>)
    requires s != {}
    ensures exists k :: IsLeast(k, s)
    decreases s
  {
    var x :| x in s;
    var below := set j | j in s && j < x;
    if below == {} {
      forall j | j in s ensures x <= j {
        assert j !in below;
      }
      assert IsLeast(x, s);
    } else {
      assert x !in below;
      LeastExists(below);
      var m :| IsLeast(m, below);
      forall j | j in s ensures m <= j {
        if j < x {
          assert j in below;
        }
      }
      assert IsLeast(m, s);
    }
  }

  /** `CustomUser.objects.get(email=email)` / `.filter(email=email)`: the row holding the email, if any. */
  function FindByEmail(rows: map<nat, UserRecord>, email: string): (r: Option<nat>)
    ensures r.None? <==> forall k :: k in rows ==> rows[k].email != email
    ensures r.Some? ==> r.value in rows && rows[r.value].email == email
  {
    var keys := EmailKeys(rows, email);
    assert forall k :: k in rows && rows[k].email == email ==> k in keys;
    if keys == {} then None
    else
      LeastExists(keys);
      var k :| IsLeast(k, keys);
      Some(k)
  }

  /** A union of error maps is empty only when each part is. */
  lemma NoErrorsInParts(a: Errors, b: Errors)
    ensures a + b == map[] <==> a == map[] && b == map[]
  {
    if a + b == map[] {
      assert forall f :: f in a ==> f in a + b;
    }
  }

  // ---------------------------------------------------------------- signup

  /** Lines 22-28: the fields the signup serializer reads, and those it requires. */
  const SignupFields: set<string> := {"email", "full_name", "password", "password2", "role", "phone"}
  const SignupRequired: set<string> := {"email", "full_name", "password", "password2"}

  /** Whether some row already holds the email the body gives. */
  function EmailUniqueness(rows: map<nat, UserRecord>, data: Data): (e: Errors)
    ensures e == map[] <==> "email" !in data || data["email"] == "" || FindByEmail(rows, data["email"]).None?
  {
    if "email" in data && data["email"] != "" && FindByEmail(rows, data["email"]).Some? then
      var e := map["email" := [EmailTaken]];
      assert "email" in e;
      e
    else map[]
  }

  /** The field stage of the signup serializer. */
  function SignupFieldErrors(rows: map<nat, UserRecord>, data: Data, checks: Errors): Errors {
    Reported(checks, SignupFields) + RoleErrors(data) + EmailUniqueness(rows, data) + PresenceErrors(data, SignupRequired)
  }

  /**
   * Lines 17-33: after the field stage, `validate` refuses two different
   * passwords with a message under `password`; the validated data holds
   * only the declared fields.
   */
  function SignupValidate(rows: map<nat, UserRecord>, data: Data, checks: Errors): (r: Checked<Data>)
    ensures SignupFieldErrors(rows, data, checks) != map[] ==> r == Rejected(SignupFieldErrors(rows, data, checks))
    ensures r.Accepted? <==> SignupFieldErrors(rows, data, checks) == map[] && data["password"] == data["password2"]
    ensures SignupFieldErrors(rows, data, checks) == map[] && data["password"] != data["password2"] ==>
              r == Rejected(map["password" := [PasswordMismatch]])
    ensures r.Accepted? ==> SignupRequired <= r.value.Keys <= SignupFields
    ensures r.Accepted? ==> forall f :: f in r.value ==> f in data && r.value[f] == data[f]
    ensures r.Accepted? ==> forall f :: f in SignupRequired ==> r.value[f] != ""
    ensures r.Accepted? ==> FindByEmail(rows, r.value["email"]).None?
    ensures r.Accepted? && "role" in r.value ==> IsRoleChoice(r.value["role"])
  {
    var errors := SignupFieldErrors(rows, data, checks);
    NoErrorsInParts(Reported(checks, SignupFields) + RoleErrors(data) + EmailUniqueness(rows, data), PresenceErrors(data, SignupRequired));
    NoErrorsInParts(Reported(checks, SignupFields) + RoleErrors(data), EmailUniqueness(rows, data));
    NoErrorsInParts(Reported(checks, SignupFields), RoleErrors(data));
    if errors != map[] then Rejected(errors)
    else if data["password"] != data["password2"] then Rejected(map["password" := [PasswordMismatch]])
    else
      assert forall f :: f in SignupRequired ==> f !in PresenceErrors(data, SignupRequired);
      Accepted(map f | f in data && f in SignupFields :: data[f])
  }

  /** `validated_data.get(key, default)`. */
  function GetOr(data: Data, key: string, default: string): string {
    if key in data then data[key] else default
  }

  /**
   * Lines 35-44: `password2` is dropped and the user is created through
   * the manager, with role CANDIDATE and phone '' when the body has none.
   * `naming` chooses the manager: `Models.NewUser` as written, or the
   * corrected `Models.NewUserFixed`.
   */
  function SignupCreate(naming: Naming, rows: map<nat, UserRecord>, nextId: nat, validated: Data): (r: Outcome<Created, string>)
    requires SignupRequired <= validated.Keys
    ensures r.Ok? ==> r.value.user.email == validated["email"] && r.value.user.fullName == validated["full_name"]
    ensures r.Ok? ==> r.value.user.password == Some(validated["password"])
    ensures r.Ok? ==> r.value.user.role == GetOr(validated, "role", DefaultRole)
    ensures r.Ok? ==> r.value.user.phone == Some(GetOr(validated, "phone", ""))
    ensures r.Ok? ==> !r.value.user.isStaff && !r.value.user.isSuperuser && r.value.user.isActive
    ensures r.Ok? ==> r.value.user.username == Some(InsertedUsername(naming, validated["email"], nextId))
    ensures r.Ok? ==> r.value.id == nextId && r.value.rows == rows[nextId := r.value.user] && r.value.nextId == nextId + 1
    ensures naming.AsWritten? ==> r == NewUser(rows, nextId, validated["email"], Some(validated["password"]), SignupExtra(validated))
    ensures naming.Corrected? ==> r == NewUserFixed(rows, nextId, validated["email"], Some(validated["password"]), SignupExtra(validated))
  {
    SignupExtraFields(validated);
    match naming
    case AsWritten => NewUser(rows, nextId, validated["email"], Some(validated["password"]), SignupExtra(validated))
    case Corrected => NewUserFixed(rows, nextId, validated["email"], Some(validated["password"]), SignupExtra(validated))
  }

  /** The keyword arguments lines 38-42 pass besides email and password. */
  function SignupExtra(validated: Data): map<string, Value>
    requires "full_name" in validated
  {
    map[
      "full_name" := Str(validated["full_name"]),
      "role" := Str(GetOr(validated, "role", DefaultRole)),
      "phone" := Str(GetOr(validated, "phone", ""))]
  }

  /** The keys `SignupExtra` holds, and the model fields it leaves to their defaults. */
  lemma SignupExtraFields(validated: Data)
    requires "full_name" in validated
    ensures SignupExtra(validated).Keys == {"full_name", "role", "phone"}
    ensures SignupExtra(validated) - {"username"} == SignupExtra(validated)
    ensures "is_staff" !in SignupExtra(validated) && "is_superuser" !in SignupExtra(validated)
    ensures "is_active" !in SignupExtra(validated) && "avatar" !in SignupExtra(validated)
  {
  }

  /**
   * With the corrected manager, a body the serializer accepts is always
   * turned into a user: the field stage has already ruled out a second row
   * with the same email, and the corrected username cannot clash. The
   * stored role is one of the choices.
   */
  lemma {:induction false} AcceptedSignupIsCreated(rows: map<nat, UserRecord>, nextId: nat, data: Data, checks: Errors)
    requires Valid(rows, nextId) && NamesGenerated(rows)
    requires SignupValidate(rows, data, checks).Accepted?
    ensures SignupCreate(Corrected, rows, nextId, SignupValidate(rows, data, checks).value).Ok?
    ensures IsRoleChoice(SignupCreate(Corrected, rows, nextId, SignupValidate(rows, data, checks).value).value.user.role)
    ensures Valid(SignupCreate(Corrected, rows, nextId, SignupValidate(rows, data, checks).value).value.rows,
                  SignupCreate(Corrected, rows, nextId, SignupValidate(rows, data, checks).value).value.nextId)
    ensures NamesGenerated(SignupCreate(Corrected, rows, nextId, SignupValidate(rows, data, checks).value).value.rows)
  {
    var validated := SignupValidate(rows, data, checks).value;
    FixedCreateSucceeds(rows, nextId, validated["email"], Some(validated["password"]), SignupExtra(validated));
    RoleChoicesAreHostAndCandidate(GetOr(validated, "role", DefaultRole));
  }

  /**
   * With the manager as written, a body the serializer accepts is still
   * refused by the database when a row already carries its local part as
   * username: the serializer checks the email only.
   */
  lemma {:induction false} AcceptedSignupCollidesAsWritten(rows: map<nat, UserRecord>, nextId: nat, data: Data, checks: Errors, k: nat)
    requires SignupValidate(rows, data, checks).Accepted?
    requires k in rows && k != nextId && rows[k].username == Some(LocalPart(data["email"]))
    ensures SignupCreate(AsWritten, rows, nextId, SignupValidate(rows, data, checks).value) == Err(UniqueViolation)
  {
    var validated := SignupValidate(rows, data, checks).value;
    var email := validated["email"];
    var built := Build(email, SignupExtra(validated) - {"username"}).(password := Some(validated["password"]));
    var user := built.(username := Some(FilledUsername(built.username, email, None)));
    assert Clash(rows[k], user);
  }

  // ----------------------------------------------------------------- login

  const LoginRequired: set<string> := {"email", "password"}

  /** What a successful login validation returns: the two fields and the user `authenticate` found. */
  datatype LoginAttrs = LoginAttrs(email: string, password: string, user: StoredUser)

  /**
   * Lines 47-68. `authenticated` is what `authenticate(username=email,
   * password=password)` returns for the two fields. The checks come in the
   * source's order: both fields given, a user found, that user active.
   */
  function LoginValidate(data: Data, checks: Errors, authenticated: Option<StoredUser>): (r: Checked<LoginAttrs>)
    ensures Reported(checks, LoginRequired) + PresenceErrors(data, LoginRequired) != map[] ==>
              r == Rejected(Reported(checks, LoginRequired) + PresenceErrors(data, LoginRequired))
    ensures Reported(checks, LoginRequired) + PresenceErrors(data, LoginRequired) == map[] ==>
              && (authenticated.None? ==> r == Rejected(NonField(InvalidCredentials)))
              && (authenticated.Some? && !authenticated.value.record.isActive ==> r == Rejected(NonField(DisabledAccount)))
    ensures r.Accepted? <==> Reported(checks, LoginRequired) + PresenceErrors(data, LoginRequired) == map[] && authenticated.Some? && authenticated.value.record.isActive
    ensures r.Accepted? ==> r.value == LoginAttrs(data["email"], data["password"], authenticated.value)
  {
    var errors := Reported(checks, LoginRequired) + PresenceErrors(data, LoginRequired);
    NoErrorsInParts(Reported(checks, LoginRequired), PresenceErrors(data, LoginRequired));
    if errors != map[] then Rejected(errors)
    else
      var email := GetOr(data, "email", "");
      var password := GetOr(data, "password", "");
      if email != "" && password != "" then
        if authenticated.None? then Rejected(NonField(InvalidCredentials))
        else if !authenticated.value.record.isActive then Rejected(NonField(DisabledAccount))
        else Accepted(LoginAttrs(email, password, authenticated.value))
      else Rejected(NonField(MissingCredentials))
  }

  /**
   * Lines 67-68 are never reached: both fields are required and may not be
   * blank, so a body without one of them fails in the field stage, with a
   * message under that field's own name.
   */
  lemma {:induction false} MissingCredentialsUnreachable(data: Data, checks: Errors, authenticated: Option<StoredUser>)
    ensures LoginValidate(data, checks, authenticated) != Rejected(NonField(MissingCredentials))
    ensures "email" !in data || data["email"] == "" ==>
              LoginValidate(data, checks, authenticated).Rejected? && "email" in LoginValidate(data, checks, authenticated).errors
  {
    var errors := Reported(checks, LoginRequired) + PresenceErrors(data, LoginRequired);
    NoErrorsInParts(Reported(checks, LoginRequired), PresenceErrors(data, LoginRequired));
    if errors == map[] {
      assert "email" !in PresenceErrors(data, LoginRequired);
      assert "password" !in PresenceErrors(data, LoginRequired);
      assert GetOr(data, "email", "") != "" && GetOr(data, "password", "") != "";
    } else {
      assert LoginValidate(data, checks, authenticated) == Rejected(errors);
      assert NonFieldErrors !in errors && NonFieldErrors in NonField(MissingCredentials);
      if "email" !in data || data["email"] == "" {
        assert "email" in PresenceErrors(data, LoginRequired);
      }
    }
  }

  // ------------------------------------------------- password reset request

  /**
   * Lines 71-78 as written: an address no row holds is refused, with a
   * message under `email`.
   */
  function ResetRequestValidate(rows: map<nat, UserRecord>, data: Data, checks: Errors): (r: Checked<string>)
    ensures Reported(checks, {"email"}) + PresenceErrors(data, {"email"}) != map[] ==> r == Rejected(Reported(checks, {"email"}) + PresenceErrors(data, {"email"}))
    ensures r.Accepted? <==> Reported(checks, {"email"}) + PresenceErrors(data, {"email"}) == map[] && FindByEmail(rows, data["email"]).Some?
    ensures Reported(checks, {"email"}) + PresenceErrors(data, {"email"}) == map[] && FindByEmail(rows, data["email"]).None? ==>
              r == Rejected(map["email" := [NoSuchUser]])
    ensures r.Accepted? ==> "email" in data && r.value == data["email"]
  {
    var errors := Reported(checks, {"email"}) + PresenceErrors(data, {"email"});
    NoErrorsInParts(Reported(checks, {"email"}), PresenceErrors(data, {"email"}));
    if errors != map[] then Rejected(errors)
    else if FindByEmail(rows, data["email"]).None? then Rejected(map["email" := [NoSuchUser]])
    else Accepted(data["email"])
  }

  /**
   * The corrected serializer: only the field's own checks, so that whether
   * an address has an account is not visible to the caller.
   */
  function ResetRequestValidateFixed(data: Data, checks: Errors): (r: Checked<string>)
    ensures r.Accepted? <==> Reported(checks, {"email"}) + PresenceErrors(data, {"email"}) == map[]
    ensures r.Rejected? ==> r.errors == Reported(checks, {"email"}) + PresenceErrors(data, {"email"})
    ensures r.Accepted? ==> "email" in data && r.value == data["email"]
  {
    var errors := Reported(checks, {"email"}) + PresenceErrors(data, {"email"});
    NoErrorsInParts(Reported(checks, {"email"}), PresenceErrors(data, {"email"}));
    if errors != map[] then Rejected(errors) else Accepted(data["email"])
  }

  /** The two serializers agree exactly on the addresses that have an account. */
  lemma {:induction false} ResetValidatorsAgreeOnAccounts(rows: map<nat, UserRecord>, data: Data, checks: Errors)
    ensures ResetRequestValidate(rows, data, checks).Accepted? ==> ResetRequestValidate(rows, data, checks) == ResetRequestValidateFixed(data, checks)
    ensures ResetRequestValidateFixed(data, checks).Accepted? && FindByEmail(rows, data["email"]).Some? ==>
              ResetRequestValidate(rows, data, checks) == ResetRequestValidateFixed(data, checks)
  {
  }

  // -------------------------------------------- password reset confirmation

  const ConfirmFields: set<string> := {"uid", "token", "new_password", "new_password2"}

  /** Lines 81-91: four required fields, then two equal passwords, else a message under `new_password`. */
  function ResetConfirmValidate(data: Data, checks: Errors): (r: Checked<Data>)
    ensures Reported(checks, ConfirmFields) + PresenceErrors(data, ConfirmFields) != map[] ==> r == Rejected(Reported(checks, ConfirmFields) + PresenceErrors(data, ConfirmFields))
    ensures r.Accepted? <==> Reported(checks, ConfirmFields) + PresenceErrors(data, ConfirmFields) == map[] && data["new_password"] == data["new_password2"]
    ensures Reported(checks, ConfirmFields) + PresenceErrors(data, ConfirmFields) == map[] && data["new_password"] != data["new_password2"] ==>
              r == Rejected(map["new_password" := [PasswordMismatch]])
    ensures r.Accepted? ==> r.value.Keys == ConfirmFields && forall f :: f in r.value ==> r.value[f] == data[f] && r.value[f] != ""
  {
    var errors := Reported(checks, ConfirmFields) + PresenceErrors(data, ConfirmFields);
    NoErrorsInParts(Reported(checks, ConfirmFields), PresenceErrors(data, ConfirmFields));
    if errors != map[] then Rejected(errors)
    else if data["new_password"] != data["new_password2"] then Rejected(map["new_password" := [PasswordMismatch]])
    else
      assert forall f :: f in ConfirmFields ==> f !in PresenceErrors(data, ConfirmFields);
      Accepted(map f | f in ConfirmFields :: data[f])
  }

  // ------------------------------------------------------------ Google login

  const GoogleFields: set<string> := {"access_token", "role"}

  datatype GoogleAttrs = GoogleAttrs(accessToken: string, role: string)

  /** Lines 95-98: a required token, and a role among the choices, CANDIDATE when absent. */
  function GoogleValidate(data: Data, checks: Errors): (r: Checked<GoogleAttrs>)
    ensures r.Accepted? <==> Reported(checks, GoogleFields) + RoleErrors(data) + PresenceErrors(data, {"access_token"}) == map[]
    ensures r.Rejected? ==> r.errors == Reported(checks, GoogleFields) + RoleErrors(data) + PresenceErrors(data, {"access_token"})
    ensures r.Accepted? ==> r.value.accessToken == data["access_token"] && r.value.accessToken != ""
    ensures r.Accepted? ==> r.value.role == GetOr(data, "role", DefaultRole) && IsRoleChoice(r.value.role)
    ensures "role" in data && !IsRoleChoice(data["role"]) ==> r.Rejected? && r.errors["role"] == [InvalidChoice(data["role"])]
  {
    var errors := Reported(checks, GoogleFields) + RoleErrors(data) + PresenceErrors(data, {"access_token"});
    NoErrorsInParts(Reported(checks, GoogleFields) + RoleErrors(data), PresenceErrors(data, {"access_token"}));
    NoErrorsInParts(Reported(checks, GoogleFields), RoleErrors(data));
    RoleChoicesAreHostAndCandidate(DefaultRole);
    if errors != map[] then Rejected(errors)
    else
      assert "access_token" !in PresenceErrors(data, {"access_token"});
      Accepted(GoogleAttrs(data["access_token"], GetOr(data, "role", DefaultRole)))
  }
}
