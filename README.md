# JobMeet authentication, modelled in Dafny

JobMeet pairs a React single-page frontend with a Django REST backend. This
project models the part of it that handles accounts and sessions:

- the backend's user model and manager (`backend/accounts/models.py`), its
  request serializers (`serializers.py`) and its API views (`views.py`):
  signup, login, logout, current user, password reset request and
  confirmation, and Google login, with the session kept in two HTTP-only
  cookies;
- the frontend's HTTP adapter with its CSRF interceptor (`api.js`), the
  auth service (`authService.js`), the auth and loading contexts, the
  routing table with its two route guards, and the pages and components
  that drive them (login, signup, password reset, reset confirmation,
  navigation bar, Google button).

Pure code (request builders, guards, route matching, serializers, views)
is modelled as datatypes and functions. Code that changes state step by
step (React state hooks, the users table, a DRF `Response` whose cookies
are set one call at a time) is modelled as classes whose methods are
specified against those functions. `end_to_end.dfy` connects the two
halves: the request a page builds, what the backend answers, and what the
auth store keeps.

Outside calls are parameters, not computations. An awaited service call
appears as its settled `Outcome`. The backend is handed several results
instead of computing them:

- JWT minting (`Tokens`);
- Google's token verifier (`Option<IdInfo>`);
- `authenticate` (`Option<StoredUser>`);
- the reset-token generator and the base64 decoder (`tokenValid`, `decoded`);
- whether `send_mail` succeeded (`delivered`);
- what the field validators report (`checks`).

Where a prose description of the system and the code differ, the model
follows the code:

- Logout clears the frontend user only when the backend call succeeds
  (`AuthContext.jsx` lines 64-74). A failed logout leaves the user logged
  in on the client.
- The password-reset serializer refuses unknown addresses, although the
  view has a branch meant to answer them like known ones. See Findings.

## Model

| member | source | states |
|---|---|---|
| Models.RoleChoicesAreHostAndCandidate | backend/accounts/models.py:47-50 | the role choices are exactly HOST and CANDIDATE, and the default role is one of them |
| Models.LocalPart | backend/accounts/models.py:87 | `email.split('@')[0]` is a prefix of the email with no `@` in it |
| Models.IdSuffix | backend/accounts/models.py:87 | `str(self.id or '')` is empty exactly when there is no id or it is 0; otherwise it is all digits and spells the id |
| Models.FilledUsername | backend/accounts/models.py:86-87 | a username that is set is kept; an empty one becomes the local part followed by the id the instance has at that moment, which is just the local part when there is no id yet |
| Models.WriteRow | backend/accounts/models.py:88 | the write is refused exactly when another row has the same email or the same non-null username; an insert takes the next key, an update keeps its key, and the other rows are unchanged |
| Models.WriteKeepsValid | backend/accounts/models.py:53-56 | a write that goes through keeps keys below the sequence value and the unique columns unique |
| Models.Build | backend/accounts/models.py:53-62 | `self.model(email=..., **extra)` keeps the email and sets no password; username, phone and avatar are the text given for them or none, full name and role the text given or '' and CANDIDATE; each of the three flags is the boolean given, otherwise not staff, not superuser, active |
| Models.NewUser | backend/accounts/models.py:8-22 | as written: an empty email raises "The Email field must be set"; a created user is always named by the local part of its email alone, takes the next key, and is added to the table |
| Models.SameLocalPartCollides | backend/accounts/models.py:84-88 | once a user exists, creating another with the same local part fails with a unique violation |
| Models.SameNameOtherDomainCollides | backend/accounts/models.py:84-88 | starting from an empty table, `p@d1` registers and then `p@d2` is refused |
| Models.GeneratedUsername | backend/accounts/models.py:86-87 | the corrected username starts with the local part, and the key's digits contain no separator |
| Models.SuffixAfterLast | backend/accounts/models.py:86-87 | the part after the last separator is determined by the string, which makes generated usernames decodable |
| Models.GeneratedUsernamesDiffer | backend/accounts/models.py:86-87 | different keys always give different generated usernames, whatever the emails |
| Models.NewUserFixed | backend/accounts/models.py:8-22 | the corrected creation: the same error cases as `create_user`, with the username generated from the key the insert assigns |
| Models.FixedCreateSucceeds | backend/accounts/models.py:84-88 | on a valid table whose usernames are generated, a new non-empty email that no row holds is always created, and the table stays valid with generated usernames |
| Models.InsertedUsername | backend/accounts/models.py:86-87 | the username a new row without one is written with: the local part alone as written, the generated name with the new key when corrected |
| Models.SetDefault | backend/accounts/models.py:26-28 | `setdefault` adds the key with the value only when it is absent, and leaves every other key alone |
| Models.SuperuserFields | backend/accounts/models.py:24-37 | the three flags default to True; a staff flag that is not True is refused first, then a superuser flag that is not True; a missing full name becomes the local part; nothing given is changed |
| Models.NewSuperuser | backend/accounts/models.py:24-39 | a refused staff or superuser flag is the error, before the empty-email check of `create_user`; a created superuser keeps the email, gets the local part as username and takes the next key |
| Models.SuperuserFlags | backend/accounts/models.py:24-39 | a created superuser is staff and superuser, active unless `is_active=False` was given, and named after the local part when no full name was given |
| Models.UserStore.constructor | backend/accounts/models.py:42 | an empty, valid table whose sequence starts at 1 |
| Models.UserStore.Write | backend/accounts/models.py:88 | the table becomes exactly what `WriteRow` gives, or stays unchanged when the write is refused; it stays valid |
| Models.CustomUser.constructor | backend/accounts/models.py:19 | an unsaved instance, with no id, holding the fields `Build` gives |
| Models.CustomUser.SetPassword | backend/accounts/models.py:20 | only the password changes |
| Models.CustomUser.Save | backend/accounts/models.py:84-88 | as written: the username is filled from the id the instance has before the write, then the row is written; on success the instance gets its key |
| Models.CustomUserManager.constructor | backend/accounts/models.py:5 | the manager works on the given table |
| Models.CustomUserManager.CreateUser | backend/accounts/models.py:8-22 | succeeds exactly when `NewUser` does, returns a fresh instance with the new key and row, and leaves the table exactly as `NewUser` says |
| Models.CustomUserManager.CreateSuperuser | backend/accounts/models.py:24-39 | succeeds exactly when `NewSuperuser` does, with the row and table it gives; a refusal changes nothing |
| Serializers.PresenceErrors | backend/accounts/serializers.py:22-28 | a required field that is missing gets "This field is required.", an empty one "This field may not be blank.", and no other field gets an error |
| Serializers.Reported | backend/accounts/serializers.py:22-28 | a field validator's failure is reported only under a declared field |
| Serializers.RoleErrors | backend/accounts/models.py:61 | a role outside HOST/CANDIDATE gets `"X" is not a valid choice.` under `role`; a missing role gets no error |
| Serializers.FindByEmail | backend/accounts/serializers.py:76 | finds nothing exactly when no row holds the email, and otherwise finds a row that holds it |
| Serializers.EmailUniqueness | backend/accounts/serializers.py:17-20 | the unique validator complains exactly when a non-empty email is already held by a row |
| Serializers.SignupValidate | backend/accounts/serializers.py:17-33 | field errors come first; with none, two different passwords give "Password fields didn't match." under `password`; accepted data holds only declared fields copied from the body, the required ones non-empty, an email no row holds, and a valid role |
| Serializers.SignupCreate | backend/accounts/serializers.py:35-44 | `password2` is dropped; the user gets the email, full name and password sent, role CANDIDATE and phone '' when absent, the default flags, and the username of the naming rule; as written the result is `NewUser`'s, corrected `NewUserFixed`'s |
| Serializers.AcceptedSignupIsCreated | backend/accounts/serializers.py:17-44 | corrected: with the corrected manager, every accepted signup body creates a user with a role among the choices, and the table stays valid |
| Serializers.AcceptedSignupCollidesAsWritten | backend/accounts/serializers.py:17-44 | as written: a body the serializer accepts is refused at the insert with an integrity error when a row already has its local part as username |
| Serializers.LoginValidate | backend/accounts/serializers.py:47-68 | field errors first; then "Invalid email or password." when authentication finds no user; then "User account is disabled." for an inactive user; otherwise the two fields and the user |
| Serializers.MissingCredentialsUnreachable | backend/accounts/serializers.py:67-68 | the 'Must include "email" and "password".' error is never produced; a missing email is reported under `email` |
| Serializers.ResetRequestValidate | backend/accounts/serializers.py:71-78 | as written: a well-formed address is accepted exactly when a row holds it, and otherwise refused with "No user found with this email address." under `email` |
| Serializers.ResetRequestValidateFixed | backend/accounts/serializers.py:71-78 | corrected: only the field's own checks decide, so the result does not depend on the table |
| Serializers.ResetValidatorsAgreeOnAccounts | backend/accounts/serializers.py:71-78 | the two serializers give the same result for every address that has an account |
| Serializers.ResetConfirmValidate | backend/accounts/serializers.py:81-91 | four required fields; with all present, two different new passwords give "Password fields didn't match." under `new_password`; accepted data is the four fields as sent |
| Serializers.GoogleValidate | backend/accounts/serializers.py:95-98 | a non-empty token and a role among the choices are accepted, with CANDIDATE when the role is absent; an invalid role is refused under `role` |
| Views.SessionCookies | backend/accounts/views.py:37-53 | the refresh cookie lives 604800 seconds and the access cookie 3600; both are HTTP-only and SameSite=Lax, and secure exactly outside debug mode |
| Views.UserJson | backend/accounts/serializers.py:8-14 | the profile sent back is the row's id, email, full name, phone, role and avatar, with its creation time, and no password |
| Views.SignupAfterValidation | backend/accounts/views.py:25-57 | under either naming rule: rejected data gives 400 with the serializer's errors and no change; accepted data gives 201 with the profile of the row just inserted under the next key, "User created successfully" and the session cookies; a failed insert gives a server error and no change |
| Views.SignupHandled | backend/accounts/views.py:23-57 | 400 exactly when the serializer refuses the body; a 201 carries the user with the email sent |
| Views.AcceptedSignupGets201 | backend/accounts/views.py:23-57 | corrected: with the corrected manager, a signup the serializer accepts always gets 201, never a server error, and leaves a valid table |
| Views.AsWrittenSignupFails | backend/accounts/views.py:23-57 | as written: after a signup answered with 201, an accepted body whose email has the same local part gets a server error, since line 26 does not catch the integrity error, and the table is left as it was |
| Views.FirstSignup | backend/accounts/views.py:23-57 | on an empty table a well-formed signup gets 201 and leaves exactly one row, under key 1, with its email |
| Views.SameNameSignupsAsWritten | backend/accounts/views.py:23-57 | as written: on an empty table `p@d1` gets 201 and then `p@d2` gets a server error |
| Views.SameNameSignupsCorrected | backend/accounts/views.py:23-57 | corrected: the same two signups both get 201 |
| Views.AliceSignsUpTwice | backend/accounts/views.py:23-57 | `alice@a.com` then `alice@b.com`: 201 and then a server error as written, 201 twice when corrected |
| Views.LoginReply | backend/accounts/views.py:64-98 | 200 exactly when the serializer accepts, with "Login successful", the active authenticated user and the session cookies; otherwise 400 with the errors and no cookie |
| Views.LogoutReply | backend/accounts/views.py:105-114 | 200 with "Logout successful"; both session cookies are set empty with max age 0 |
| Views.CurrentUserReply | backend/accounts/views.py:121-123 | 200 with the profile of the authenticated user and no cookie |
| Views.StoreCookies | backend/accounts/views.py:111-112 | a browser stores a cookie with a positive max age and removes an expired one; other cookies stay |
| Views.LogoutEndsSession | backend/accounts/views.py:101-114 | after a login the jar holds both tokens; after a following logout it holds neither |
| Views.ResetAfterValidation | backend/accounts/views.py:132-193 | rejected data gives 400 with the errors; an address with no account gets the neutral 200; a known one gets a mail with the link, then 200, or 500 when sending fails |
| Views.ResetRequestHandled | backend/accounts/views.py:130-193 | as written: every 200 reply comes with a mail, and mail only goes to addresses that have an account |
| Views.ResetRequestHandledFixed | backend/accounts/views.py:130-193 | with the corrected serializer, mail still goes only to addresses that have an account |
| Views.AsWrittenRevealsAccounts | backend/accounts/views.py:136-140 | as written, an unknown address gets 400 with "No user found with this email address." and a known one gets 200 |
| Views.FixedHidesAccounts | backend/accounts/views.py:136-140 | corrected, every well-formed address gets the same 200 reply, and a mail goes out exactly when it has an account |
| Views.ResetLinkOpensConfirmPage | backend/accounts/views.py:150 | the mailed link is the frontend URL plus `/reset-password/<uid>/<token>`, and the frontend routes it to the confirmation page with that uid and token |
| Views.ClientOutcome | frontend/src/services/api.js:33-44 | a 2xx reply resolves on the client; any other status rejects with the status and body |
| Views.ResetToastRevealsAccounts | backend/accounts/views.py:136-140 | as written, the forgot-password page shows "Failed to send reset email" for an unknown address and "Password reset email sent!" for a known one; corrected, both get the latter |
| Views.ResetConfirmHandled | backend/accounts/views.py:201-234 | field errors give 400; an undecodable or unknown uid gives "Invalid reset link"; a rejected token gives "Invalid or expired reset link"; a 200 means all checks passed; only a 200 changes the table |
| Views.ResetChangesOnlyPassword | backend/accounts/views.py:227-232 | a reset that passes every check gives 200 and changes that user's password and nothing else |
| Views.GetOrCreate | backend/accounts/views.py:262-269 | an existing row for the email is returned untouched; otherwise a new row is created under the next key with the email, the role, the name and picture or '', and the username of the naming rule; a refused insert is the integrity error `get_or_create` re-raises |
| Views.GoogleHandled | backend/accounts/views.py:242-307 | field errors give 400; a token Google rejects gives 400 "Invalid Google token"; a 200 carries the user, `is_new_user` and the session cookies; anything but 200 changes nothing |
| Views.GoogleKeepsExistingUser | backend/accounts/views.py:262-278 | under either naming rule, an email with an account gets that account as stored, whatever role is asked, with `is_new_user` false and the table unchanged |
| Views.GoogleCreatesNewUser | backend/accounts/views.py:262-278 | corrected: with the corrected naming, an email without an account creates a user with the requested role, with `is_new_user` true, and the table stays valid |
| Views.AsWrittenGoogleFails | backend/accounts/views.py:242-307 | as written: a new email whose local part is already a username gets a server error, since only `ValueError` is caught, and the table is left as it was |
| Views.AliceSignupThenGoogle | backend/accounts/views.py:242-307 | as written: after `alice@a.com` signs up, a Google login as `alice@b.com` gets a server error |
| Views.Response.constructor | backend/accounts/views.py:32-35 | a response with the given status and body and no cookie |
| Views.Response.SetCookie | backend/accounts/views.py:37-53 | the named cookie is replaced, the others stay |
| Views.Response.DeleteCookie | backend/accounts/views.py:111-112 | the named cookie becomes empty and expired, the others stay |
| Views.SetSessionCookies | backend/accounts/views.py:37-53 | the response gains exactly the two session cookies |
| Views.SignupView | backend/accounts/views.py:19-57 | for the naming rule given, the response is `SignupHandled`'s reply, and the table changes as it says |
| Views.SaveAndReply | backend/accounts/views.py:25-57 | for the naming rule given, the response and the table are what `SignupAfterValidation` gives for the serializer's verdict |
| Views.LoginView | backend/accounts/views.py:60-98 | the response is `LoginReply` |
| Views.LogoutView | backend/accounts/views.py:101-114 | the response is `LogoutReply` |
| Views.PasswordResetRequestView | backend/accounts/views.py:126-193 | with the serializer as written (`UnknownRefused`) the response and the mail are what `ResetRequestHandled` gives, so an unknown address gets 400; with the corrected one (`UnknownAccepted`) what `ResetRequestHandledFixed` gives; the table is not changed |
| Views.PasswordResetConfirmView | backend/accounts/views.py:197-234 | the response and the table are what `ResetConfirmHandled` gives |
| Views.GoogleLoginView | backend/accounts/views.py:238-307 | for the naming rule given, the response and the table are what `GoogleHandled` gives |
| EndToEnd.AuthData | frontend/src/contexts/AuthContext.jsx:37-87 | a 2xx reply resolves with the user and `is_new_user` it carries; any other reply rejects |
| EndToEnd.SignupMismatchChecksAgree | backend/accounts/serializers.py:30-33 | once the field checks pass, the backend accepts a body the signup page sends exactly when the page would send it; a body the page refuses is refused by the backend for the password mismatch |
| EndToEnd.ConfirmMismatchChecksAgree | backend/accounts/serializers.py:87-90 | for the reset confirmation, the backend accepts exactly when the two new passwords agree, as the page checks |
| EndToEnd.SessionFollowsLogin | frontend/src/contexts/AuthContext.jsx:37-48 | after a login settles, the store holds the account the backend authenticated, or is unchanged when the backend refused |
| EndToEnd.GoogleToastTellsCreation | frontend/src/contexts/AuthContext.jsx:76-87 | the Google toast says "Account created successfully!" exactly when the backend created the account, and "Login successful!" otherwise |
| Api.FindRow | frontend/src/services/api.js:16-19 | finds nothing exactly when no cookie row starts with the prefix, and otherwise a row that does |
| Api.CookieRows | frontend/src/services/api.js:17 | splitting on `; ` loses nothing: the rows joined back are the cookie string |
| Api.CsrfToken | frontend/src/services/api.js:16-19 | no token exactly when no row starts with `csrftoken=`; otherwise the value of such a row, cut at the next `=` |
| Api.HeadersAfterInterceptor | frontend/src/services/api.js:21-23 | `X-CSRFToken` is set to the token exactly for a non-empty token and a method other than GET; no other header changes |
| Api.RequestConfig.constructor | frontend/src/services/api.js:14 | a config with the given method, url, headers and body |
| Api.RequestInterceptor | frontend/src/services/api.js:14-26 | the same config comes back, with only its headers updated by the CSRF rule |
| Api.ResponseInterceptor | frontend/src/services/api.js:33-44 | a response and an error, a 401 included, pass through unchanged |
| Api.TokenCutAtEquals | frontend/src/services/api.js:19 | `csrftoken=a=b` gives the token `a` |
| Api.EmptyValueAddsNoHeader | frontend/src/services/api.js:21-23 | an empty `csrftoken=` adds no header |
| AuthService.PhoneOrEmpty | frontend/src/services/authService.js:18 | `data.phone \|\| ''` |
| AuthService.SignupRequest | frontend/src/services/authService.js:11-21 | POST `/api/auth/signup/` with exactly the six fields, taken from the data, and phone '' when absent |
| AuthService.LoginRequest | frontend/src/services/authService.js:26-32 | POST `/api/auth/login/` with exactly `email` and `password` |
| AuthService.ConfirmResetRequest | frontend/src/services/authService.js:63-71 | POST `/api/auth/password-reset/confirm/` with exactly uid, token and the two new passwords |
| AuthService.GoogleLoginRequest | frontend/src/services/authService.js:76-82 | POST `/api/auth/google/` with the token and the role, CANDIDATE when omitted |
| AuthService.RequestFor | frontend/src/services/authService.js:11-82 | each operation issues its own request; only logout and `getCurrentUser` send no body |
| AuthService.OnlyCurrentUserIsGet | frontend/src/services/authService.js:45-48 | `getCurrentUser` is the only GET; every other operation POSTs |
| AuthService.PathsIdentifyOperations | frontend/src/services/authService.js:11-82 | two calls share a path exactly when they are the same operation |
| AuthService.Result | frontend/src/services/authService.js:20 | a success resolves with `response.data`; a failure rejects with the same error |
| AuthService.CsrfOnEveryMutatingCall | frontend/src/services/api.js:21-23 | with a token present, every operation but `getCurrentUser` carries the CSRF header |
| App.DropTrailingEmpty | frontend/src/App.jsx:30-86 | a trailing slash is ignored when matching, and nothing else is dropped |
| App.MatchRoute | frontend/src/App.jsx:30-86 | only a path starting with `/` matches; Home is the only unguarded page, and Dashboard and Settings are exactly the pages that need a session |
| App.Render | frontend/src/App.jsx:30-86 | a redirect goes to `/`, `/login` or `/dashboard`; a shown page is the matched route's page, and a page that needs a session is shown only once loaded and with a session |
| App.SegmentsOfRoot | frontend/src/App.jsx:32 | `/` has no segments |
| App.OneSegment | frontend/src/App.jsx:30-86 | `/word` matches as the single segment `word` |
| App.HomeIsUnguarded | frontend/src/App.jsx:32 | `/` shows Home with no guard, whatever the session |
| App.LoginRoute | frontend/src/App.jsx:33-40 | `/login` is a visitors-only page |
| App.SignupRoute | frontend/src/App.jsx:41-48 | `/signup` is a visitors-only page |
| App.PasswordResetRoute | frontend/src/App.jsx:49-56 | `/reset-password` is a visitors-only page |
| App.DashboardRoute | frontend/src/App.jsx:67-74 | `/dashboard` needs a session |
| App.SettingsRoute | frontend/src/App.jsx:75-82 | `/settings` needs a session |
| App.ConfirmRouteBinds | frontend/src/App.jsx:57-64 | `/reset-password/uid/token` opens the visitors-only confirmation page with both segments as they stand |
| App.ConfirmParamsAreSegments | frontend/src/App.jsx:57-64 | whatever path opens the confirmation page, it is visitors-only and its uid and token are non-empty and hold no `/` |
| App.FallbackGoesHome | frontend/src/App.jsx:85 | a path matching no route redirects to `/`, replacing the history entry |
| App.GuardedPagesWait | frontend/src/App.jsx:33-82 | while the session is loading, every guarded page shows the spinner |
| App.RedirectsSettleInOneHop | frontend/src/App.jsx:30-86 | after loading, a redirect leads to a page that is shown, never to another redirect |
| AuthContext.LoginMessagePriority | frontend/src/contexts/AuthContext.jsx:44 | a failed login shows the server's `error`, else its first `email` message, else "Login failed" |
| AuthContext.SignupMessagePriority | frontend/src/contexts/AuthContext.jsx:57-58 | a failed signup shows `error`, else the first `email` message, else the first `password` message, else "Signup failed" |
| AuthContext.GoogleMessagePriority | frontend/src/contexts/AuthContext.jsx:83 | a failed Google login shows `error`, else "Google login failed", also when there was no response |
| AuthContext.LoginFailureMessage | frontend/src/contexts/AuthContext.jsx:44 | never empty: the `error` text, the first `email` message or "Login failed" |
| AuthContext.SignupFailureMessage | frontend/src/contexts/AuthContext.jsx:57-58 | never empty: the `error` text, the first `email` or `password` message, or "Signup failed" |
| AuthContext.GoogleFailureMessage | frontend/src/contexts/AuthContext.jsx:83 | never empty: the `error` text or "Google login failed" |
| AuthContext.AfterFetch | frontend/src/contexts/AuthContext.jsx:21-35 | after the mount fetch the session is no longer loading, and holds the fetched user or none |
| AuthContext.AfterAuth | frontend/src/contexts/AuthContext.jsx:37-87 | success stores the user and shows the success toast; failure changes nothing and returns and shows the failure message |
| AuthContext.AfterLogin | frontend/src/contexts/AuthContext.jsx:37-48 | a failed login returns its non-empty failure message |
| AuthContext.AfterSignup | frontend/src/contexts/AuthContext.jsx:50-62 | a failed signup returns its non-empty failure message |
| AuthContext.AfterGoogleLogin | frontend/src/contexts/AuthContext.jsx:76-87 | a failed Google login returns its non-empty failure message |
| AuthContext.AfterLogout | frontend/src/contexts/AuthContext.jsx:64-74 | a successful logout clears the user and shows "Logged out successfully"; a failed one keeps the session and shows "Logout failed" |
| AuthContext.Apply | frontend/src/contexts/AuthContext.jsx:17-87 | one settled operation moves the store as its handler says; only the mount fetch changes `loading`, and it ends it |
| AuthContext.LoadingClearedOnlyByFetch | frontend/src/contexts/AuthContext.jsx:17-35 | across any sequence of events, `loading` ends true exactly when it started true and no mount fetch settled |
| AuthContext.LoadingFalseAfterMount | frontend/src/contexts/AuthContext.jsx:21-35 | once the mount fetch has settled, loading stays false |
| AuthContext.FailuresLeaveSessionUnchanged | frontend/src/contexts/AuthContext.jsx:37-87 | a failed login, signup, logout or Google login leaves the session as it was |
| AuthContext.FailedLogoutKeepsUser | frontend/src/contexts/AuthContext.jsx:64-74 | after a failed logout the user is still authenticated |
| AuthContext.NewUserFlagOnlySelectsMessage | frontend/src/contexts/AuthContext.jsx:80 | `is_new_user` changes only the toast, not the session or the result |
| AuthContext.AuthProvider.IsAuthenticated | frontend/src/contexts/AuthContext.jsx:96 | authenticated exactly when a user is stored |
| AuthContext.AuthProvider.constructor | frontend/src/contexts/AuthContext.jsx:17-18 | no user, loading |
| AuthContext.AuthProvider.FetchUser | frontend/src/contexts/AuthContext.jsx:22-32 | calls `getCurrentUser` and moves to `AfterFetch`'s session |
| AuthContext.AuthProvider.Login | frontend/src/contexts/AuthContext.jsx:37-48 | calls `login` with the two fields; session, result and toast are `AfterLogin`'s |
| AuthContext.AuthProvider.Signup | frontend/src/contexts/AuthContext.jsx:50-62 | calls `signup` with the data; session, result and toast are `AfterSignup`'s |
| AuthContext.AuthProvider.Logout | frontend/src/contexts/AuthContext.jsx:64-74 | calls `logout`; session, result and toast are `AfterLogout`'s |
| AuthContext.AuthProvider.GoogleLogin | frontend/src/contexts/AuthContext.jsx:76-87 | calls `googleLogin` with the token and role; session, result and toast are `AfterGoogleLogin`'s |
| LoadingContext.Cancel | frontend/src/contexts/LoadingContext.jsx:33-39 | clearing the recorded timer removes exactly that timer |
| LoadingContext.Stopped | frontend/src/contexts/LoadingContext.jsx:25-39 | a stop hides the overlay; with a captured record it clears that timer and, through the cleanup, the current one, and forgets the record; with none captured it changes nothing else |
| LoadingContext.Step | frontend/src/contexts/LoadingContext.jsx:18-39 | after unmounting nothing changes; only an elapsing live timer shows the overlay; handles are never reused |
| LoadingContext.InitialIsValid | frontend/src/contexts/LoadingContext.jsx:15-16 | the provider starts hidden, with no timer recorded or scheduled |
| LoadingContext.StepKeepsValid | frontend/src/contexts/LoadingContext.jsx:18-39 | every event keeps at most the recorded timer scheduled |
| LoadingContext.StartDefers | frontend/src/contexts/LoadingContext.jsx:18-23 | starting does not show the overlay; it schedules one timer with the delay and records it |
| LoadingContext.StopResets | frontend/src/contexts/LoadingContext.jsx:25-31 | a stop that captured the current record is the corrected stop; it hides the overlay, forgets the record and leaves no timer |
| LoadingContext.RecordChangeCancels | frontend/src/contexts/LoadingContext.jsx:33-39 | a recorded timer is cancelled as soon as the record changes or the provider unmounts |
| LoadingContext.FiredTimerStaysRecorded | frontend/src/contexts/LoadingContext.jsx:19-31 | a timer that elapses shows the overlay and stays recorded, and a later stop that sees the record still hides it |
| LoadingContext.QuietRun | frontend/src/contexts/LoadingContext.jsx:18-39 | with no start, a hidden provider without timers stays so |
| LoadingContext.StoppedInTimeNeverShows | frontend/src/contexts/LoadingContext.jsx:18-31 | corrected: a start followed by a stop that sees the new record, before the delay, never shows the overlay, whatever follows without another start |
| LoadingContext.ShownStaysShown | frontend/src/contexts/LoadingContext.jsx:18-31 | once shown, the overlay stays shown through any starts and elapsing timers until a stop |
| LoadingContext.SameHandlerStopStillShows | frontend/src/contexts/LoadingContext.jsx:18-31 | as written: a stop from the same handler as the start captured no record, so the timer survives, elapses, and the overlay then stays shown |
| LoadingContext.LoadingProvider.constructor | frontend/src/contexts/LoadingContext.jsx:15-16 | the initial overlay state |
| LoadingContext.LoadingProvider.StartLoading | frontend/src/contexts/LoadingContext.jsx:18-23 | the state becomes `Step(Start(delay))` of the old one |
| LoadingContext.LoadingProvider.TimeoutElapsed | frontend/src/contexts/LoadingContext.jsx:20 | the state becomes `Step(Fire(handle))` of the old one |
| LoadingContext.LoadingProvider.StopLoading | frontend/src/contexts/LoadingContext.jsx:25-31 | for the record its render captured, the state becomes `Step(StopWith(captured))` of the old one |
| LoadingContext.LoadingProvider.Unmount | frontend/src/contexts/LoadingContext.jsx:34-38 | the state becomes `Step(Unmount)` of the old one |
| Navbar.GetInitials | frontend/src/components/Navbar.jsx:42-50 | at most two characters; "U" when there is no name |
| Navbar.Heads | frontend/src/components/Navbar.jsx:45-47 | one character per non-empty word, so at most one per word and exactly one per word when none is empty |
| Navbar.WordStartsAreNotSpaces | frontend/src/components/Navbar.jsx:44-49 | the starts of a name's words are never spaces |
| Navbar.HeadsOfSplit | frontend/src/components/Navbar.jsx:44-49 | the first characters of the parts of `split(' ')` are exactly the starts of the words |
| Navbar.NamedInitials | frontend/src/components/Navbar.jsx:44-49 | a non-empty name gives the first two word starts, upper-cased, with no space |
| Navbar.BlankNameHasNoInitials | frontend/src/components/Navbar.jsx:44-49 | a name of spaces only has no word starts, so its initials are empty |
| Navbar.NavbarState.constructor | frontend/src/components/Navbar.jsx:31 | the logout dialog starts closed |
| Navbar.NavbarState.HandleLogoutClick | frontend/src/components/Navbar.jsx:33-35 | the menu item only opens the dialog |
| Navbar.NavbarState.SetShowLogoutDialog | frontend/src/components/Navbar.jsx:175 | the dialog opens or closes as asked |
| Navbar.NavbarState.ConfirmLogout | frontend/src/components/Navbar.jsx:37-40 | logs out through the auth store, as `AfterLogout` says, then goes to `/` |
| LoginPage.RedirectTarget | frontend/src/pages/Login.jsx:19 | the page the visitor came from, or `/dashboard` |
| LoginPage.FromPathname | frontend/src/pages/Login.jsx:19 | the `from` pathname of the navigation state, or '' when there is none; `RedirectTarget` and `ReturnsToGuardedPage` state where it leads |
| LoginPage.AfterSettle | frontend/src/pages/Login.jsx:29-31 | navigates, replacing the history entry, exactly when the login succeeded |
| LoginPage.NavigatesOnlyOnSuccess | frontend/src/pages/Login.jsx:27-31 | the page navigates exactly when the login call succeeds |
| LoginPage.ReturnsToGuardedPage | frontend/src/pages/Login.jsx:19 | a visitor sent from a guarded page to `/login` goes back to that page after logging in |
| LoginPage.LoginForm.constructor | frontend/src/pages/Login.jsx:12-14 | empty fields, not loading |
| LoginPage.LoginForm.SetEmail | frontend/src/pages/Login.jsx:60 | only the email changes |
| LoginPage.LoginForm.SetPassword | frontend/src/pages/Login.jsx:83 | only the password changes |
| LoginPage.LoginForm.BeginSubmit | frontend/src/pages/Login.jsx:21-25 | a submit while not loading sets loading and calls `login` with the two fields; while loading it does nothing |
| LoginPage.LoginForm.Settle | frontend/src/pages/Login.jsx:27-31 | loading ends, and the navigation is `AfterSettle`'s |
| LoginPage.LoginForm.HandleSubmit | frontend/src/pages/Login.jsx:21-32 | the whole submit: the store moves as `AfterLogin` says, then the page navigates as `AfterSettle` says |
| SignupPage.InitialFormDefaults | frontend/src/pages/Signup.jsx:13-20 | every form field starts empty except the role, which is CANDIDATE |
| SignupPage.ToSignupData | frontend/src/services/authService.js:11-18 | the form's fields become the signup data unchanged |
| SignupPage.BeginSignup | frontend/src/pages/Signup.jsx:32-42 | two different passwords give "Passwords don't match" and no call; otherwise `signup` is called with the form |
| SignupPage.AfterSettle | frontend/src/pages/Signup.jsx:44-48 | a successful signup goes to `/dashboard`, as the Google button does, and a failed one stays |
| SignupPage.SentRequestCarriesForm | frontend/src/pages/Signup.jsx:42 | a sent request carries the form's fields under the backend's names, with equal passwords |
| SignupPage.SignupForm.constructor | frontend/src/pages/Signup.jsx:13-21 | the initial form, not loading |
| SignupPage.SignupForm.HandleChange | frontend/src/pages/Signup.jsx:25-30 | only the named field changes |
| SignupPage.SignupForm.BeginSubmit | frontend/src/pages/Signup.jsx:32-42 | a mismatch shows the toast, a match sets loading and calls `signup`; while loading nothing happens |
| SignupPage.SignupForm.Settle | frontend/src/pages/Signup.jsx:44-48 | loading ends, and the navigation is `AfterSettle`'s |
| SignupPage.SignupForm.HandleSubmit | frontend/src/pages/Signup.jsx:32-49 | the whole submit: the store moves as `AfterSignup` says and the page navigates as `AfterSettle` says |
| SignupPage.SignupForm.GoogleButtonFor | frontend/src/pages/Signup.jsx:190 | the Google button uses the role chosen in the form |
| PasswordResetPage.RequestToast | frontend/src/pages/PasswordReset.jsx:21-25 | "Password reset email sent!" on success; on failure the server's `error`, else "Failed to send reset email" |
| PasswordResetPage.PasswordResetForm.constructor | frontend/src/pages/PasswordReset.jsx:12-14 | empty email, not loading, not sent |
| PasswordResetPage.PasswordResetForm.ShowsForm | frontend/src/pages/PasswordReset.jsx:47 | the form shows until the mail has been sent |
| PasswordResetPage.PasswordResetForm.SetEmail | frontend/src/pages/PasswordReset.jsx:59 | only the email changes |
| PasswordResetPage.PasswordResetForm.BeginSubmit | frontend/src/pages/PasswordReset.jsx:16-21 | when idle, sets loading and requests a reset for the email |
| PasswordResetPage.PasswordResetForm.Settle | frontend/src/pages/PasswordReset.jsx:22-28 | loading ends, `sent` becomes true on success, and the toast is `RequestToast`'s |
| PasswordResetPage.PasswordResetForm.HandleSubmit | frontend/src/pages/PasswordReset.jsx:16-29 | the whole submit: the form disappears exactly when the request succeeded |
| PasswordResetConfirmPage.ConfirmToast | frontend/src/pages/PasswordResetConfirm.jsx:30-34 | "Password reset successful!" on success; on failure the server's `error`, else "Failed to reset password" |
| PasswordResetConfirmPage.LinkReachesBackend | frontend/src/pages/PasswordResetConfirm.jsx:12-30 | the route's uid and token reach the backend request unchanged |
| PasswordResetConfirmPage.PasswordResetConfirmForm.constructor | frontend/src/pages/PasswordResetConfirm.jsx:12-17 | the route's uid and token, empty passwords, not loading, not done |
| PasswordResetConfirmPage.PasswordResetConfirmForm.ShowsForm | frontend/src/pages/PasswordResetConfirm.jsx:56 | the form shows until the reset has gone through |
| PasswordResetConfirmPage.PasswordResetConfirmForm.SetNewPassword | frontend/src/pages/PasswordResetConfirm.jsx:68 | only the first password changes |
| PasswordResetConfirmPage.PasswordResetConfirmForm.SetNewPassword2 | frontend/src/pages/PasswordResetConfirm.jsx:84 | only the second password changes |
| PasswordResetConfirmPage.PasswordResetConfirmForm.BeginSubmit | frontend/src/pages/PasswordResetConfirm.jsx:19-30 | different passwords give "Passwords don't match" and no call; equal ones set loading and send uid, token and both passwords |
| PasswordResetConfirmPage.PasswordResetConfirmForm.Settle | frontend/src/pages/PasswordResetConfirm.jsx:31-37 | loading ends, success is recorded, and the toast is `ConfirmToast`'s |
| PasswordResetConfirmPage.PasswordResetConfirmForm.HandleSubmit | frontend/src/pages/PasswordResetConfirm.jsx:19-38 | the whole submit: a call exactly for equal passwords when idle, and success exactly when it succeeded |
| GoogleLoginButton.ButtonRole | frontend/src/components/GoogleLoginButton.jsx:6 | the given role, or CANDIDATE |
| GoogleLoginButton.AfterGoogle | frontend/src/components/GoogleLoginButton.jsx:17-19 | a successful Google login goes to `/dashboard` |
| GoogleLoginButton.RequestCarriesButtonRole | frontend/src/components/GoogleLoginButton.jsx:15 | the request carries the credential and the button's role, CANDIDATE by default |
| GoogleLoginButton.GoogleButton.constructor | frontend/src/components/GoogleLoginButton.jsx:6-7 | the button's role, not loading |
| GoogleLoginButton.GoogleButton.HandleGoogleSuccess | frontend/src/components/GoogleLoginButton.jsx:11-25 | calls `googleLogin` with the credential and role, the store moves as `AfterGoogleLogin` says, the page navigates on success, and loading ends |
| GoogleLoginButton.GoogleButton.HandleGoogleError | frontend/src/components/GoogleLoginButton.jsx:27-30 | loading ends |
| ProtectedRoute.Guard | frontend/src/components/ProtectedRoute.jsx:10-23 | a spinner while loading; the page with a session; otherwise a redirect to `/login` that replaces the entry and remembers the location |
| PublicRoute.Guard | frontend/src/components/PublicRoute.jsx:9-22 | a spinner while loading; the page without a session; otherwise a redirect to `/dashboard` that replaces the entry |
| PublicRoute.ExactlyOneGuardRenders | frontend/src/components/PublicRoute.jsx:17-22 | once loaded, exactly one of the two guards shows its page, and the other redirects |
| PublicRoute.BothWaitWhileLoading | frontend/src/components/PublicRoute.jsx:9-15 | both guards show the spinner while loading |

## Left out

- Password hashing: a row keeps the raw password, and `None` stands for an unusable one.
- `normalize_email`: it is Django code and is not part of this model, so emails are compared exactly as sent.
- Fields of `AbstractUser` other than those `models.py` declares or sets are not part of this model.
- Validators this model does not compute are an oracle (`checks`): `validate_password`, email syntax, maximum lengths and DRF's whitespace trimming. Only the first message per field is modelled where DRF would list several.
- `authenticate`, JWT minting, Google's verifier, the base64 encoding of the key, the reset-token generator and `send_mail` are parameters. Their results are given, not computed. A `KeyError` from a token without `email` is not modelled.
- `IsAuthenticated` refusing an anonymous caller (401) is not modelled. `CurrentUserReply` and `LogoutReply` assume the permission check passed.
- The reset mail's HTML body and the views' debug prints are not modelled; a mail is its recipient and link.
- `authentication.py` and `urls.py` are not part of this model: the cookie-reading authentication class is the `authenticated` parameter, and the URL table is the set of paths `authService.js` uses.
- Home, Dashboard and Settings pages are not part of this model; the routing table shows which guard each one has.
- react-router's case-insensitive matching and URL decoding of parameters are not modelled: paths match exactly, and `:uid`/`:token` bind the raw segment.
- `toUpperCase` is modelled on ASCII letters only.
- Real time is not modelled: a timer elapses when a `Fire` event says so, whatever its delay.
- React's re-renders are not modelled, except for the record `stopLoading` captures: every other handler reads the state as it is when it runs.
- Toasts and console output are returned values. `GoogleButton`'s `loading` flag is kept but never rendered, and its `catch` branch is not modelled because `googleLogin` never rejects.
- `Navbar.GetInitials`: its own contract states only the length bound and the "U" case; the initials of a named user are stated by `Navbar.NamedInitials` and `Navbar.BlankNameHasNoInitials`.
- `Views.SignupHandled`: states only the 400 case and the email of a 201; the full reply is stated by `Views.SignupAfterValidation`.
- `Views.CurrentUserReply`: states the id, email and role of the profile; the other fields are copied from the same row.
- `Views.ResetRequestHandled`: states only which replies carry a mail; the reply itself is stated by `Views.ResetAfterValidation` and `Views.AsWrittenRevealsAccounts`.
- The signup and Google paths take the username rule as a parameter, `AsWritten` or `Corrected` (see Findings); the reset request view takes the serializer as a parameter, `UnknownRefused` (as written) or `UnknownAccepted` (corrected).
- Serializers.AcceptedSignupIsCreated: holds for the corrected manager only; as written an accepted body can still fail at the insert (`Serializers.AcceptedSignupCollidesAsWritten`).
- Views.AcceptedSignupGets201: holds for the corrected manager only; as written an accepted signup can get a server error (`Views.AsWrittenSignupFails`, `Views.AliceSignsUpTwice`).
- Views.GoogleCreatesNewUser: holds for the corrected naming only; as written a new email whose local part is taken gets a server error (`Views.AsWrittenGoogleFails`).
- Views.SignupView, Views.SaveAndReply, Views.GoogleLoginView, Serializers.SignupCreate and Views.GetOrCreate: follow the rule they are given; with `AsWritten` they are the code, and nothing proved about `Corrected` carries over to it.
- LoadingContext.StoppedInTimeNeverShows: holds for the corrected stop, or for a stop created after the provider re-rendered with the new record; a `stopLoading` called in the same handler as `startLoading` does not keep the overlay hidden (`LoadingContext.SameHandlerStopStillShows`).
- "User account is disabled." is only reachable with an authentication backend that returns inactive users. Django's default backend returns none, so `authenticated` is left free.

## Findings

| source | as written | input that shows it | evidently intended | confidence | as-written member | corrected member |
|---|---|---|---|---|---|---|
| backend/accounts/serializers.py:75-78 | `validate_email` refuses an address without an account with 400. The view's branch at views.py:136-140 that answers such an address with the neutral 200 is never reached, and the reply shows whether an account exists | `{"email": "nobody@example.com"}` with no such user: 400 "No user found with this email address." The page shows "Failed to send reset email", where a known address gets 200 | every well-formed address gets the same 200 reply, and only known ones get a mail | not executed | Views.AsWrittenRevealsAccounts | Views.FixedHidesAccounts |
| backend/accounts/models.py:84-88 | `save` fills the username with `local + str(self.id or '')` before the insert gives the instance an id, so every user the manager creates is named by the local part alone. `username` is unique, so a second address with the same local part cannot be registered | `create_user("alice@a.com")` then `create_user("alice@b.com")`: the second insert violates the unique username. Through the views, signing up `alice@b.com` after `alice@a.com` gets a server error, and so does a Google login as `alice@b.com` (`Views.AliceSignsUpTwice`, `Views.AliceSignupThenGoogle`) | usernames made unique with the new key, so any new email can register | not executed | Models.SameNameOtherDomainCollides | Models.FixedCreateSucceeds |
| frontend/src/contexts/LoadingContext.jsx:25-31 | `stopLoading` reads `loadingDelay` from the render it was created in. Called in the same handler as `startLoading`, it sees `null`: it clears no timer and leaves the new record, and the cleanup of lines 33-39 only clears it once the record changes again | `startLoading(); await call(); stopLoading();` in one handler, with the call settling within 300 ms: the timer still elapses, and the overlay shows and stays until some later stop | a stop before the delay keeps the overlay hidden | not executed; no caller among the files modelled | LoadingContext.SameHandlerStopStillShows | LoadingContext.StoppedInTimeNeverShows |
