/** The social-login orchestration shared by every auth view-model.

    A login first reports `loading`, then asks the provider's adapter for a
    token; if the adapter succeeds, the token is exchanged for an application
    token at POST /auth/oauth, and the exchange's result is reported through
    exactly one of the abstract hooks.  The flow is modelled as the list of
    steps it takes; the screens implement the hooks (see SignIn, SignUp and
    AuthScreen). */
module BaseAuth {
  import opened Effects
  import Remote

  datatype Provider = Google | Facebook

  /** The `provider` field of the OAuth request. */
  function ProviderTag(p: Provider): string
  {
    match p
    case Google => "google"
    case Facebook => "facebook"
  }

  datatype GoogleAccount = GoogleAccount(token: string, displayName: string, profileImageUrl: Option<string>)

  /** What the Google credential adapter produced: an account, or an
      exception whose message may be null. */
  datatype GoogleSignIn = SignedIn(account: GoogleAccount) | Threw(message: Option<string>)

  /** What the Facebook SDK reported to the registered callback. */
  datatype FacebookResult = LoggedIn(accessToken: string) | Cancelled | Failed(message: Option<string>)

  /** The result of either adapter. */
  datatype Adapter = GoogleAdapter(google: GoogleSignIn) | FacebookAdapter(facebook: FacebookResult)

  /** The abstract hooks every screen's view-model overrides. */
  datatype Hook =
    | Loading
    | GoogleError(msg: string)
    | FacebookError(msg: string)
    | SocialLoginSuccess(token: string)

  /** One step of a social login, in order. */
  datatype Step =
    | Called(hook: Hook)
    | AskedProvider(provider: Provider)
    | Exchanged(request: Remote.OAuthRequest)

  function ProviderOf(a: Adapter): Provider
  {
    match a
    case GoogleAdapter(_) => Google
    case FacebookAdapter(_) => Facebook
  }

  /** The provider token the adapter handed back, if it succeeded. */
  function AdapterToken(a: Adapter): Option<string>
  {
    match a
    case GoogleAdapter(SignedIn(account)) => Some(account.token)
    case FacebookAdapter(LoggedIn(token)) => Some(token)
    case _ => None
  }

  /** Kotlin renders a null exception message as "null". */
  function MessageText(message: Option<string>): string
  {
    match message
    case Some(m) => m
    case None => "null"
  }

  /** The hook that receives errors on provider `p`'s path. */
  predicate RoutedTo(p: Provider, h: Hook)
  {
    match p
    case Google => h.GoogleError?
    case Facebook => h.FacebookError?
  }

  function ErrorHook(p: Provider, msg: string): (h: Hook)
    ensures RoutedTo(p, h) && h.msg == msg
  {
    match p
    case Google => GoogleError(msg)
    case Facebook => FacebookError(msg)
  }

  /** The message for a failed token exchange: a fixed table of status codes,
      and "Failed" for every other code and for a failure that carries none. */
  function OAuthFailureMessage(response: Remote.ApiResponse): (msg: string)
    requires !response.Success?
    ensures msg == "Invalid Token" <==> response.Error? && response.code == 401
    ensures msg == "Server Error" <==> response.Error? && response.code == 500
    ensures msg == "Not Found" <==> response.Error? && response.code == 404
    ensures msg == "Failed" <==> !(response.Error? && response.code in {401, 404, 500})
  {
    if response.Error? then
      if response.code == 401 then "Invalid Token"
      else if response.code == 500 then "Server Error"
      else if response.code == 404 then "Not Found"
      else "Failed"
    else
      "Failed"
  }

  /** The one hook a token exchange on provider `p`'s path ends in. */
  function ExchangeOutcome(p: Provider, response: Remote.ApiResponse): (h: Hook)
    ensures h.SocialLoginSuccess? <==> response.Success?
    ensures response.Success? ==> h.token == response.data.token
    ensures !response.Success? ==> RoutedTo(p, h) && h.msg == OAuthFailureMessage(response)
  {
    if response.Success? then SocialLoginSuccess(response.data.token)
    else ErrorHook(p, OAuthFailureMessage(response))
  }

  /** fetchFoodAppToken: send the provider token to the backend and report the reply. */
  function FetchFoodAppToken(token: string, p: Provider, server: Remote.OAuthRequest -> Remote.ApiResponse): seq<Step>
  {
    var request := Remote.OAuthRequest(token, ProviderTag(p));
    [Exchanged(request), Called(ExchangeOutcome(p, server(request)))]
  }

  /** initiateGoogleLogin: an adapter exception goes to onGoogleError with its message. */
  function InitiateGoogleLogin(g: GoogleSignIn, server: Remote.OAuthRequest -> Remote.ApiResponse): seq<Step>
  {
    [Called(Hook.Loading), AskedProvider(Google)] +
      match g
      case SignedIn(account) => FetchFoodAppToken(account.token, Google, server)
      case Threw(message) => [Called(GoogleError(MessageText(message)))]
  }

  /** initiateFacebookLogin: a cancel or an SDK error goes to onFacebookError. */
  function InitiateFacebookLogin(f: FacebookResult, server: Remote.OAuthRequest -> Remote.ApiResponse): seq<Step>
  {
    [Called(Hook.Loading), AskedProvider(Facebook)] +
      match f
      case LoggedIn(token) => FetchFoodAppToken(token, Facebook, server)
      case Cancelled => [Called(FacebookError("Cancelled"))]
      case Failed(message) => [Called(FacebookError("Failed: " + MessageText(message)))]
  }

  function SocialLogin(a: Adapter, server: Remote.OAuthRequest -> Remote.ApiResponse): seq<Step>
  {
    match a
    case GoogleAdapter(g) => InitiateGoogleLogin(g, server)
    case FacebookAdapter(f) => InitiateFacebookLogin(f, server)
  }

  /** The hooks a run of steps calls, in order. */
  function Hooks(steps: seq<Step>): seq<Hook>
    decreases |steps|
  {
    if steps == [] then []
    else (if steps[0].Called? then [steps[0].hook] else []) + Hooks(steps[1..])
  }

  /** The hook a login ends in: its last step. */
  function Outcome(steps: seq<Step>): Hook
    requires steps != [] && steps[|steps| - 1].Called?
  {
    steps[|steps| - 1].hook
  }

  /** A login is well formed when it ends in a hook. */
  predicate EndsInHook(steps: seq<Step>)
  {
    steps != [] && steps[|steps| - 1].Called?
  }

  /** loading() is the first thing a login does, before the adapter is asked. */
  lemma LoadingComesFirst(a: Adapter, server: Remote.OAuthRequest -> Remote.ApiResponse)
    ensures |SocialLogin(a, server)| >= 3
    ensures SocialLogin(a, server)[0] == Called(Hook.Loading)
    ensures SocialLogin(a, server)[1] == AskedProvider(ProviderOf(a))
    ensures EndsInHook(SocialLogin(a, server))
  {
  }

  /** A login calls exactly two hooks: loading, then its outcome; the outcome
      is the success hook or the error hook of the login's own provider. */
  lemma ExactlyOneOutcome(a: Adapter, server: Remote.OAuthRequest -> Remote.ApiResponse)
    ensures EndsInHook(SocialLogin(a, server))
    ensures Hooks(SocialLogin(a, server)) == [Hook.Loading, Outcome(SocialLogin(a, server))]
    ensures var h := Outcome(SocialLogin(a, server));
      h.SocialLoginSuccess? || RoutedTo(ProviderOf(a), h)
  {
    var steps := SocialLogin(a, server);
    var tail := steps[2..];
    assert steps == [Called(Hook.Loading), AskedProvider(ProviderOf(a))] + tail;
    HooksAppend([Called(Hook.Loading), AskedProvider(ProviderOf(a))], tail);
    assert Hooks([AskedProvider(ProviderOf(a))]) == [];
    if AdapterToken(a).Some? {
      assert tail == [tail[0]] + [tail[1]];
      HooksAppend([tail[0]], [tail[1]]);
      assert Hooks([tail[0]]) == [];
    }
  }

  /** A failed adapter never reaches the token exchange: no request is sent,
      and the backend's behaviour cannot change the outcome. */
  lemma AdapterFailureSkipsExchange(a: Adapter, server: Remote.OAuthRequest -> Remote.ApiResponse,
                                    other: Remote.OAuthRequest -> Remote.ApiResponse)
    requires AdapterToken(a).None?
    ensures forall i :: 0 <= i < |SocialLogin(a, server)| ==> !SocialLogin(a, server)[i].Exchanged?
    ensures SocialLogin(a, server) == SocialLogin(a, other)
    ensures RoutedTo(ProviderOf(a), Outcome(SocialLogin(a, server)))
  {
  }

  /** The adapter's messages: an exception's message for Google, "Cancelled"
      or "Failed: " and the SDK's message for Facebook. */
  lemma AdapterFailureMessages(a: Adapter, server: Remote.OAuthRequest -> Remote.ApiResponse)
    requires AdapterToken(a).None?
    ensures a.GoogleAdapter? ==> Outcome(SocialLogin(a, server)) == GoogleError(MessageText(a.google.message))
    ensures a == FacebookAdapter(Cancelled) ==> Outcome(SocialLogin(a, server)) == FacebookError("Cancelled")
    ensures a.FacebookAdapter? && a.facebook.Failed? ==>
      Outcome(SocialLogin(a, server)) == FacebookError("Failed: " + MessageText(a.facebook.message))
  {
  }

  /** A successful adapter's token goes to the backend unchanged, tagged with
      its own provider, in the login's only exchange. */
  lemma ExchangeCarriesProviderToken(a: Adapter, server: Remote.OAuthRequest -> Remote.ApiResponse)
    requires AdapterToken(a).Some?
    ensures var steps := SocialLogin(a, server);
      |steps| == 4 &&
      steps[2] == Exchanged(Remote.OAuthRequest(AdapterToken(a).value, ProviderTag(ProviderOf(a)))) &&
      forall i :: 0 <= i < |steps| && i != 2 ==> !steps[i].Exchanged?
  {
  }

  /** A login succeeds with token `t` exactly when the adapter succeeded and
      the backend answered its request with `t`: the server's token, not the
      provider's. */
  lemma SuccessCarriesServerToken(a: Adapter, server: Remote.OAuthRequest -> Remote.ApiResponse, t: string)
    ensures EndsInHook(SocialLogin(a, server))
    ensures Outcome(SocialLogin(a, server)) == SocialLoginSuccess(t) <==>
      AdapterToken(a).Some? &&
      var response := server(Remote.OAuthRequest(AdapterToken(a).value, ProviderTag(ProviderOf(a))));
      response.Success? && response.data.token == t
  {
  }

  /** When the exchange fails, the outcome is the provider's error hook with
      the message from the status-code table. */
  lemma ExchangeFailureMessage(a: Adapter, server: Remote.OAuthRequest -> Remote.ApiResponse)
    requires AdapterToken(a).Some?
    requires !server(Remote.OAuthRequest(AdapterToken(a).value, ProviderTag(ProviderOf(a)))).Success?
    ensures Outcome(SocialLogin(a, server)) ==
      ErrorHook(ProviderOf(a), OAuthFailureMessage(server(Remote.OAuthRequest(AdapterToken(a).value, ProviderTag(ProviderOf(a))))))
  {
  }

  lemma {:induction false} HooksAppend(s: seq<Step>, t: seq<Step>)
    ensures Hooks(s + t) == Hooks(s) + Hooks(t)
    decreases |s|
  {
    if s == [] {
      assert s + t == t;
    } else {
      var u := s + t;
      var head := if s[0].Called? then [s[0].hook] else [];
      assert u[0] == s[0] && u[1..] == s[1..] + t;
      HooksAppend(s[1..], t);
      assert Hooks(u) == head + Hooks(s[1..] + t);
      assert Hooks(s) == head + Hooks(s[1..]);
    }
  }
}
