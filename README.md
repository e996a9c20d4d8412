# FoodHub authentication view-models

A Dafny model of the authentication layer of the FoodHub Android app: the
shared social-login flow (`BaseAuthViewModel`) and the three screens that
build on it (sign-in, sign-up and the landing auth screen).  Each screen's
view-model holds a UI state (Nothing, Loading, Success, Error), the two error
strings shown in the error sheet (`error`, `errorDescription`), its form
fields, the token stored in the session, and a stream of one-shot navigation
events.

Layout:

- `effects.dfy` (module `Effects`): the UI state, the five kinds of side
  effect a handler performs (set the state, set the title, set the
  description, store a token, emit an event), their fold `Apply` over a
  `View`, the emitted events `Emitted`, and the guard
  `HomeOnlyWhenSignedIn`: every NavigateToHome is emitted in state Success
  after some token was stored.  It also holds `Cursor` and `Advance`, used
  to check a handler's writes one at a time (below).
- `remote.dfy` (module `Remote`): the request and response shapes of the
  backend's auth endpoints.
- `base_auth.dfy` (module `BaseAuth`): the social-login flow as a list of
  steps (hook calls, the adapter being asked, the token exchange), with the
  provider adapters' results and the backend as parameters.
- `sign_in.dfy`, `sign_up.dfy`, `auth_screen.dfy`: one class per
  view-model.  Every handler is a method that updates the fields in source
  order.  Each handler that changes the state, the error strings, the token
  or the events is proved against its effect list.
  - A ghost cursor walks that list as the handler runs.  After each field
    write, `Advance` names the effect just performed.  Its precondition
    checks two things: that this effect is the next one in the list, and
    that the fields now equal the previous view with that effect applied.
    A write out of order, or one the list does not contain, fails to verify.
  - When the list is used up, the handler's effects are appended to a ghost
    trace.  The handler's `ensures` gives the new state and the effects
    appended.
  - The form-field setters (`OnEmailChange`, `OnPasswordChange`,
    `OnNameChange`) change only their own field and leave the trace alone.
  - The class invariant `Valid` says three things: the fields are the fold
    of the trace from the initial view, the event stream is what the trace
    emitted, and home was reached only while signed in.  The last is stated
    over the whole trace, so the token it asks for may have been stored by
    an earlier handler.  That each handler which navigates home stores its
    own token first is stated by the per-handler lemmas (`SignInSucceeds`,
    `HookOutcome` and the like).
- The sign-in and sign-up click handlers are split after the request.
  `Accept` models the success branch, `Reject` the failure branch, and
  sign-up's `Crash` the catch block.  `WriteFailureText` models the writes
  of the error strings, including the 400 overwrite.  `Settle` closes the
  handler.  The Loading write that precedes the request is checked by
  `AwaitingReply`, the precondition of each branch method.

Points where the model follows the code and a reader might expect otherwise:

- A failed sign-in shows the description "Failed to sign up".  A failed
  sign-up shows the title "Sign In Failed", and for status 400 the title
  "Invalid Credintials".  These strings are modelled as written.
- The token-exchange table has no row for 400.  A 400 from the OAuth
  endpoint therefore reports "Failed", as does a failure that carries no
  status code.
- On the auth screen, the Facebook error hook emits ShowErrorDialog before
  it sets Error (`AuthScreen.ErrorDialogTiming`).  The Google hook sets
  Error first.  So the UI state does not always leave Loading before an
  event is emitted.
- When Google sign-in throws an exception whose message is null, the error
  hook receives the text "null".  The same holds for a null message in Facebook's
  "Failed: " text.

## Model

| member | source | states |
|---|---|---|
| Effects.HomeGuardMeaning | app/src/main/java/com/deeromptech/foodhub_android/ui/features/auth/login/SignInViewModel.kt:56-60 | the class invariant's guard holds iff every NavigateToHome in the trace is emitted in state Success after some token was stored earlier in the trace; the same guard is part of the invariant of all three view-models, so it also covers SignUpViewModel.kt:66-70, the three onSocialLoginSuccess overrides and AuthScreenViewModel.kt:65-71 |
| Remote.CodeOrZero | app/src/main/java/com/deeromptech/foodhub_android/ui/features/auth/login/SignInViewModel.kt:63 | no contract of its own; the status code of an Error reply and 0 for any other reply, as here and at SignUpViewModel.kt:73; SignIn.SignInFails and SignUp.SignUpFails state its use, FailureText of this value |
| BaseAuth.MessageText | app/src/main/java/com/deeromptech/foodhub_android/ui/features/auth/BaseAuthViewModel.kt:51-100 | no contract of its own; a null exception message becomes "null", as at lines 51 and 100; AdapterFailureMessages states it |
| BaseAuth.FetchFoodAppToken | app/src/main/java/com/deeromptech/foodhub_android/ui/features/auth/BaseAuthViewModel.kt:56-82 | no contract of its own; ExchangeCarriesProviderToken, SuccessCarriesServerToken, ExchangeOutcome and ExchangeFailureMessage state it: one request with the provider token and its tag, then the success hook with the server's token or the provider's error hook with the table message |
| BaseAuth.InitiateGoogleLogin | app/src/main/java/com/deeromptech/foodhub_android/ui/features/auth/BaseAuthViewModel.kt:40-54 | no contract of its own; LoadingComesFirst, ExactlyOneOutcome, AdapterFailureMessages and AdapterFailureSkipsExchange state it: loading, then the adapter, then either the exchange or onGoogleError with the exception's message |
| BaseAuth.InitiateFacebookLogin | app/src/main/java/com/deeromptech/foodhub_android/ui/features/auth/BaseAuthViewModel.kt:84-109 | no contract of its own; LoadingComesFirst, ExactlyOneOutcome, AdapterFailureMessages and AdapterFailureSkipsExchange state it: loading, then the adapter, then the exchange, or onFacebookError with "Cancelled" or "Failed: " and the SDK message |
| BaseAuth.SocialLogin | app/src/main/java/com/deeromptech/foodhub_android/ui/features/auth/BaseAuthViewModel.kt:32-38 | no contract of its own; onGoogleClicked and onFacebookClicked, chosen by the adapter's provider; ExactlyOneOutcome and SuccessCarriesServerToken state it for every adapter result and backend |
| BaseAuth.ErrorHook | app/src/main/java/com/deeromptech/foodhub_android/ui/features/auth/BaseAuthViewModel.kt:47-92 | errors on a provider's path go to that provider's error hook with the message unchanged |
| BaseAuth.OAuthFailureMessage | app/src/main/java/com/deeromptech/foodhub_android/ui/features/auth/BaseAuthViewModel.kt:67-79 | a failed exchange is reported as "Invalid Token" iff the code is 401, "Server Error" iff 500, "Not Found" iff 404, and "Failed" iff it is none of these or the failure has no code |
| BaseAuth.ExchangeOutcome | app/src/main/java/com/deeromptech/foodhub_android/ui/features/auth/BaseAuthViewModel.kt:61-80 | the exchange ends in the success hook iff the reply is Success, carrying the reply's token; otherwise it ends in the provider's error hook with the table message |
| BaseAuth.LoadingComesFirst | app/src/main/java/com/deeromptech/foodhub_android/ui/features/auth/BaseAuthViewModel.kt:40-85 | a login calls loading() first, before the provider adapter is asked, and ends in a hook |
| BaseAuth.ExactlyOneOutcome | app/src/main/java/com/deeromptech/foodhub_android/ui/features/auth/BaseAuthViewModel.kt:40-109 | a login calls exactly two hooks: loading, then one outcome, which is either the success hook or the error hook of the login's own provider |
| BaseAuth.AdapterFailureSkipsExchange | app/src/main/java/com/deeromptech/foodhub_android/ui/features/auth/BaseAuthViewModel.kt:50-101 | when the adapter fails, no OAuth request is sent, the backend cannot affect the login, and the outcome is the provider's error hook |
| BaseAuth.AdapterFailureMessages | app/src/main/java/com/deeromptech/foodhub_android/ui/features/auth/BaseAuthViewModel.kt:51-101 | the error message is the Google exception's message (null becomes "null"), "Cancelled" for a Facebook cancel, and "Failed: " plus the SDK's message for a Facebook error |
| BaseAuth.ExchangeCarriesProviderToken | app/src/main/java/com/deeromptech/foodhub_android/ui/features/auth/BaseAuthViewModel.kt:47-90 | a successful adapter's token is sent unchanged, tagged "google" or "facebook", in the login's only exchange |
| BaseAuth.SuccessCarriesServerToken | app/src/main/java/com/deeromptech/foodhub_android/ui/features/auth/BaseAuthViewModel.kt:62-65 | a login succeeds with token t iff the adapter succeeded and the backend answered its request with t; the stored token is the server's, not the provider's |
| BaseAuth.ExchangeFailureMessage | app/src/main/java/com/deeromptech/foodhub_android/ui/features/auth/BaseAuthViewModel.kt:67-79 | when the exchange fails, the outcome is the provider's error hook with the message from the status-code table |
| SignIn.ResponseEffects | app/src/main/java/com/deeromptech/foodhub_android/ui/features/auth/login/SignInViewModel.kt:55-74 | no contract of its own; the reply's effects in source order, against which Accept and Reject check each write; SignInSucceeds and SignInFails state their outcome |
| SignIn.SignInEffects | app/src/main/java/com/deeromptech/foodhub_android/ui/features/auth/login/SignInViewModel.kt:45-76 | no contract of its own; Loading, then the reply's effects; OnSignInClick appends exactly this list, and SignInSucceeds and SignInFails state its outcome |
| SignIn.HookEffects | app/src/main/java/com/deeromptech/foodhub_android/ui/features/auth/login/SignInViewModel.kt:96-124 | no contract of its own; each override's effects in source order, against which the hook methods check each write; HookOutcome states their outcome |
| SignIn.FailureText | app/src/main/java/com/deeromptech/foodhub_android/ui/features/auth/login/SignInViewModel.kt:63-71 | a failed sign-in shows "Invalid Credentials" / "Please enter correct details." iff the status code is 400, and "Sign In Failed" / "Failed to sign up" otherwise |
| SignIn.SignInSucceeds | app/src/main/java/com/deeromptech/foodhub_android/ui/features/auth/login/SignInViewModel.kt:47-60 | a successful sign-in sets Loading, then Success, stores the reply's token, and then emits exactly one NavigateToHome |
| SignIn.SignInFails | app/src/main/java/com/deeromptech/foodhub_android/ui/features/auth/login/SignInViewModel.kt:62-73 | a failed sign-in ends in Error with the failure strings for its code, only writes the state and the strings, stores nothing and emits nothing |
| SignIn.HookOutcome | app/src/main/java/com/deeromptech/foodhub_android/ui/features/auth/login/SignInViewModel.kt:96-124 | loading touches only the state; an error hook sets Error with its provider's title and the message and emits nothing; the success hook stores the token, sets Success, then navigates home |
| SignIn.SignInViewModel.constructor | app/src/main/java/com/deeromptech/foodhub_android/ui/features/auth/login/SignInViewModel.kt:25-35 | state Nothing, empty email, password and error strings, the session's token, and no events |
| SignIn.SignInViewModel.OnEmailChange | app/src/main/java/com/deeromptech/foodhub_android/ui/features/auth/login/SignInViewModel.kt:37-39 | replaces the email and nothing else |
| SignIn.SignInViewModel.OnPasswordChange | app/src/main/java/com/deeromptech/foodhub_android/ui/features/auth/login/SignInViewModel.kt:41-43 | replaces the password and nothing else |
| SignIn.SignInViewModel.OnSignInClick | app/src/main/java/com/deeromptech/foodhub_android/ui/features/auth/login/SignInViewModel.kt:45-76 | sends the current email and password; on success: Success, the reply's token stored, one NavigateToHome, error strings kept; on failure: Error with the code's failure strings, token and events unchanged |
| SignIn.SignInViewModel.Accept | app/src/main/java/com/deeromptech/foodhub_android/ui/features/auth/login/SignInViewModel.kt:56-60 | after Loading, performs exactly the success effects in order: Success, the reply's token stored, then NavigateToHome; error strings kept |
| SignIn.SignInViewModel.Reject | app/src/main/java/com/deeromptech/foodhub_android/ui/features/auth/login/SignInViewModel.kt:62-73 | after Loading, performs exactly the failure effects in order and ends in Error with the code's failure strings; token and events unchanged |
| SignIn.SignInViewModel.WriteFailureText | app/src/main/java/com/deeromptech/foodhub_android/ui/features/auth/login/SignInViewModel.kt:63-71 | writes the generic title, then the generic description, then for status 400 the replacing title and description, as the next effects of the handler's list |
| SignIn.SignInViewModel.OnSignUpClicked | app/src/main/java/com/deeromptech/foodhub_android/ui/features/auth/login/SignInViewModel.kt:78-82 | emits one NavigateToSignUp and changes nothing else |
| SignIn.SignInViewModel.Loading | app/src/main/java/com/deeromptech/foodhub_android/ui/features/auth/login/SignInViewModel.kt:96-100 | sets the state to Loading and nothing else |
| SignIn.SignInViewModel.OnGoogleError | app/src/main/java/com/deeromptech/foodhub_android/ui/features/auth/login/SignInViewModel.kt:102-108 | Error, title "Google Sign In Failed", description the message; token and events unchanged |
| SignIn.SignInViewModel.OnFacebookError | app/src/main/java/com/deeromptech/foodhub_android/ui/features/auth/login/SignInViewModel.kt:110-116 | Error, title "Facebook Sign In Failed", description the message; token and events unchanged |
| SignIn.SignInViewModel.OnSocialLoginSuccess | app/src/main/java/com/deeromptech/foodhub_android/ui/features/auth/login/SignInViewModel.kt:118-124 | stores the token, sets Success, emits one NavigateToHome; error strings unchanged |
| SignIn.SignInViewModel.Run | app/src/main/java/com/deeromptech/foodhub_android/ui/features/auth/BaseAuthViewModel.kt:27-30 | the base flow's call of a hook runs this screen's override, and the fields become the fold of its effects |
| SignIn.SignInViewModel.OnSocialClicked | app/src/main/java/com/deeromptech/foodhub_android/ui/features/auth/BaseAuthViewModel.kt:32-38 | a Google or Facebook login ends in Success with the server's token and one NavigateToHome, or in Error with the provider's title and the flow's message and no event |
| SignUp.ResponseEffects | app/src/main/java/com/deeromptech/foodhub_android/ui/features/auth/signup/SignUpViewModel.kt:65-84 | no contract of its own; the reply's effects in source order, against which Accept and Reject check each write; SignUpSucceeds and SignUpFails state their outcome |
| SignUp.CallEffects | app/src/main/java/com/deeromptech/foodhub_android/ui/features/auth/signup/SignUpViewModel.kt:65-90 | no contract of its own; the reply's effects, or Error alone when the call threw; Crash, Accept and Reject check each write against it |
| SignUp.SignUpEffects | app/src/main/java/com/deeromptech/foodhub_android/ui/features/auth/signup/SignUpViewModel.kt:52-94 | no contract of its own; Loading, then the call's effects; OnSignUpClick appends exactly this list, and SignUpSucceeds, SignUpFails and SignUpThrows state its outcome |
| SignUp.HookEffects | app/src/main/java/com/deeromptech/foodhub_android/ui/features/auth/signup/SignUpViewModel.kt:102-130 | no contract of its own; each override's effects in source order, against which the hook methods check each write; HookOutcome states their outcome |
| SignUp.FailureText | app/src/main/java/com/deeromptech/foodhub_android/ui/features/auth/signup/SignUpViewModel.kt:73-81 | a failed sign-up shows "Invalid Credintials" / "Please enter correct details." iff the status code is 400, and "Sign In Failed" / "Failed to sign up" otherwise |
| SignUp.SignUpSucceeds | app/src/main/java/com/deeromptech/foodhub_android/ui/features/auth/signup/SignUpViewModel.kt:54-70 | a successful sign-up sets Loading, then Success, stores the reply's token, then emits NavigateToHome |
| SignUp.SignUpFails | app/src/main/java/com/deeromptech/foodhub_android/ui/features/auth/signup/SignUpViewModel.kt:72-83 | a failed sign-up ends in Error with the code's failure strings, stores nothing and emits nothing |
| SignUp.SignUpThrows | app/src/main/java/com/deeromptech/foodhub_android/ui/features/auth/signup/SignUpViewModel.kt:87-90 | an exception escaping the call leaves state Error with the error strings, token and events untouched |
| SignUp.HookOutcome | app/src/main/java/com/deeromptech/foodhub_android/ui/features/auth/signup/SignUpViewModel.kt:102-130 | loading touches only the state; an error hook sets Error with its provider's title and the message and emits nothing; the success hook stores the token, sets Success, then navigates home |
| SignUp.SignUpViewModel.constructor | app/src/main/java/com/deeromptech/foodhub_android/ui/features/auth/signup/SignUpViewModel.kt:25-38 | state Nothing, empty form fields and error strings, the session's token, and no events |
| SignUp.SignUpViewModel.OnEmailChange | app/src/main/java/com/deeromptech/foodhub_android/ui/features/auth/signup/SignUpViewModel.kt:40-42 | replaces the email and nothing else |
| SignUp.SignUpViewModel.OnPasswordChange | app/src/main/java/com/deeromptech/foodhub_android/ui/features/auth/signup/SignUpViewModel.kt:44-46 | replaces the password and nothing else |
| SignUp.SignUpViewModel.OnNameChange | app/src/main/java/com/deeromptech/foodhub_android/ui/features/auth/signup/SignUpViewModel.kt:48-50 | replaces the name and nothing else |
| SignUp.SignUpViewModel.OnSignUpClick | app/src/main/java/com/deeromptech/foodhub_android/ui/features/auth/signup/SignUpViewModel.kt:52-94 | sends the current name, email and password; success, failure and an escaped exception each end as the three lemmas above state |
| SignUp.SignUpViewModel.Accept | app/src/main/java/com/deeromptech/foodhub_android/ui/features/auth/signup/SignUpViewModel.kt:65-70 | after Loading, performs exactly the success effects in order: Success, the reply's token stored, then NavigateToHome; error strings kept |
| SignUp.SignUpViewModel.Reject | app/src/main/java/com/deeromptech/foodhub_android/ui/features/auth/signup/SignUpViewModel.kt:72-83 | after Loading, performs exactly the failure effects in order and ends in Error with the code's failure strings; token and events unchanged |
| SignUp.SignUpViewModel.WriteFailureText | app/src/main/java/com/deeromptech/foodhub_android/ui/features/auth/signup/SignUpViewModel.kt:73-81 | writes the generic title, then the generic description, then for status 400 the replacing title and description, as the next effects of the handler's list |
| SignUp.SignUpViewModel.Crash | app/src/main/java/com/deeromptech/foodhub_android/ui/features/auth/signup/SignUpViewModel.kt:87-90 | after Loading, an exception only sets Error; error strings, token and events unchanged |
| SignUp.SignUpViewModel.OnLoginClicked | app/src/main/java/com/deeromptech/foodhub_android/ui/features/auth/signup/SignUpViewModel.kt:96-100 | emits one NavigateToLogin and changes nothing else |
| SignUp.SignUpViewModel.Loading | app/src/main/java/com/deeromptech/foodhub_android/ui/features/auth/signup/SignUpViewModel.kt:102-106 | sets the state to Loading and nothing else |
| SignUp.SignUpViewModel.OnGoogleError | app/src/main/java/com/deeromptech/foodhub_android/ui/features/auth/signup/SignUpViewModel.kt:108-114 | Error, title "Google Sign In Failed", description the message; token and events unchanged |
| SignUp.SignUpViewModel.OnFacebookError | app/src/main/java/com/deeromptech/foodhub_android/ui/features/auth/signup/SignUpViewModel.kt:116-122 | Error, title "Facebook Sign In Failed", description the message; token and events unchanged |
| SignUp.SignUpViewModel.OnSocialLoginSuccess | app/src/main/java/com/deeromptech/foodhub_android/ui/features/auth/signup/SignUpViewModel.kt:124-130 | stores the token, sets Success, emits one NavigateToHome |
| SignUp.SignUpViewModel.Run | app/src/main/java/com/deeromptech/foodhub_android/ui/features/auth/BaseAuthViewModel.kt:27-30 | the base flow's call of a hook runs this screen's override |
| SignUp.SignUpViewModel.OnSocialClicked | app/src/main/java/com/deeromptech/foodhub_android/ui/features/auth/BaseAuthViewModel.kt:32-38 | a social login ends in Success with the server's token and one NavigateToHome, or in Error with the provider's title and the flow's message |
| AuthScreen.HookEffects | app/src/main/java/com/deeromptech/foodhub_android/ui/features/auth/AuthScreenViewModel.kt:41-71 | no contract of its own; each override's effects in source order, Facebook's emit before its Error write; the hook methods check each write against it, and HookOutcome and ErrorDialogTiming state its outcome |
| AuthScreen.HookOutcome | app/src/main/java/com/deeromptech/foodhub_android/ui/features/auth/AuthScreenViewModel.kt:41-71 | loading touches only the state; an error hook sets Error with its provider's title and the message, stores nothing and emits exactly one ShowErrorDialog; the success hook stores the token, sets Success, then navigates home |
| AuthScreen.ErrorDialogTiming | app/src/main/java/com/deeromptech/foodhub_android/ui/features/auth/AuthScreenViewModel.kt:47-63 | when ShowErrorDialog is emitted both strings are set; the Google hook has already set Error, while the Facebook hook has not yet changed the state |
| AuthScreen.AuthScreenViewModel.constructor | app/src/main/java/com/deeromptech/foodhub_android/ui/features/auth/AuthScreenViewModel.kt:21-25 | state Nothing, empty error strings, the session's token, and no events |
| AuthScreen.AuthScreenViewModel.Loading | app/src/main/java/com/deeromptech/foodhub_android/ui/features/auth/AuthScreenViewModel.kt:41-45 | sets the state to Loading and nothing else |
| AuthScreen.AuthScreenViewModel.OnGoogleError | app/src/main/java/com/deeromptech/foodhub_android/ui/features/auth/AuthScreenViewModel.kt:47-54 | Error, title "Google Sign In Failed", description the message, one ShowErrorDialog; token unchanged |
| AuthScreen.AuthScreenViewModel.OnFacebookError | app/src/main/java/com/deeromptech/foodhub_android/ui/features/auth/AuthScreenViewModel.kt:56-63 | Error, title "Facebook Sign In Failed", description the message, one ShowErrorDialog; token unchanged |
| AuthScreen.AuthScreenViewModel.OnSocialLoginSuccess | app/src/main/java/com/deeromptech/foodhub_android/ui/features/auth/AuthScreenViewModel.kt:65-71 | stores the token, sets Success, emits one NavigateToHome |
| AuthScreen.AuthScreenViewModel.Run | app/src/main/java/com/deeromptech/foodhub_android/ui/features/auth/BaseAuthViewModel.kt:27-30 | the base flow's call of a hook runs this screen's override |
| AuthScreen.AuthScreenViewModel.OnSocialClicked | app/src/main/java/com/deeromptech/foodhub_android/ui/features/auth/BaseAuthViewModel.kt:32-38 | a social login ends in Success with the server's token and one NavigateToHome, or in Error with the provider's title, the flow's message and one ShowErrorDialog |

## Left out

- The Compose screens, navigation graph, dependency injection, FoodApi's
  Retrofit definitions and the network module are not part of this model.
- `ApiResponse` and `safeApiCall` are not part of this model.  Their
  three outcomes (Success with a body, Error with a status code, Exception)
  are inferred from how the view-models branch on them.
- `FoodHubSession` is modelled as a `storedToken` field in each
  view-model.  The model does not capture that the three view-models share
  one preference store, or that `apply()` writes it asynchronously.
- The Google and Facebook SDKs are represented only by their results
  (`BaseAuth.Adapter`).  These are not modelled: the credential-type check
  inside `GoogleAuthUiProvider`, the `CallbackManager` and `LoginManager`
  registration, and the read-permission list "public_profile", "email".
- Coroutines: every `viewModelScope.launch` block is modelled as running to
  completion in program order.  The model does not capture two things:
  - interleavings between the hooks' separate coroutines;
  - a second click arriving while a request is in flight.
- SharedFlow delivery: `emit` is modelled as appending to the event list,
  so the list is every emit call, not what a screen receives.  The source's
  flows have no replay and no buffer: an event emitted while no screen is
  collecting is dropped, and an emit that suspends for a slow collector is
  not modelled.
- The Kotlin sealed classes SignInEvent, SignupEvent and AuthEvent are
  modelled as one shared `UiState`, since they have the same four cases.
- `BaseAuth.SocialLogin` models both `onGoogleClicked` and
  `onFacebookClicked`, chosen by the adapter's provider.  Each class's
  `OnSocialClicked` stands for both buttons.
- The auth screen's NavigateToSignUp event is declared but never emitted by
  its view-model, so no method emits it.
- SignUp.SignUpViewModel.OnSignUpClick: the model only covers an exception
  from the call itself.  An exception from storing the token or from
  emitting after a successful reply is not modelled, and neither is
  `printStackTrace`.
- SignIn.SignInViewModel.OnSignInClick: an exception escaping the call is
  not modelled, because the handler does not catch it.
- Google account fields other than the token (display name, profile image)
  are carried but not used by the flow.
