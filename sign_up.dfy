/** The sign-up screen's view-model: name/email/password sign-up (whose
    handler also catches any exception that escapes), the link back to the
    login screen, and its overrides of the social-login hooks. */
module SignUp {
  import opened Effects
  import Remote
  import BaseAuth

  datatype NavigationEvent = NavigateToLogin | NavigateToHome

  type SignUpEffect = Effect<NavigationEvent>

  /** Title and description a failed sign-up leaves in the error sheet, by
      status code (0 when the failure carried no code).  The 400 title is
      spelled as the app spells it. */
  function FailureText(code: int): (r: (string, string))
    ensures r.0 == "Invalid Credintials" <==> code == 400
    ensures r.1 == "Please enter correct details." <==> code == 400
    ensures code != 400 ==> r == ("Sign In Failed", "Failed to sign up")
  {
    if code == 400 then ("Invalid Credintials", "Please enter correct details.")
    else ("Sign In Failed", "Failed to sign up")
  }

  /** What onSignUpClick does with the backend's reply, in source order: on
      success set Success, store the token, then navigate home; otherwise
      write the generic strings, overwrite them for 400, then set Error. */
  function ResponseEffects(response: Remote.ApiResponse): seq<Effect<NavigationEvent>>
  {
    if response.Success? then
      [SetState(UiState.Success), StoreToken(response.data.token), Emit(NavigateToHome)]
    else
      [SetTitle("Sign In Failed"), SetDescription("Failed to sign up")] +
      (if Remote.CodeOrZero(response) == 400
       then [SetTitle("Invalid Credintials"), SetDescription("Please enter correct details.")]
       else []) +
      [SetState(UiState.Error)]
  }

  /** What onSignUpClick does once the call is over: the reply's effects, or
      just Error when an exception escaped the call. */
  function CallEffects(call: Remote.Call): seq<Effect<NavigationEvent>>
  {
    match call
    case Returned(response) => ResponseEffects(response)
    case Threw => [SetState(UiState.Error)]
  }

  /** The whole of onSignUpClick: Loading before the request, then the
      call's effects. */
  function SignUpEffects(call: Remote.Call): seq<Effect<NavigationEvent>>
  {
    [SetState(UiState.Loading)] + CallEffects(call)
  }

  /** This view-model's overrides of the base flow's hooks. */
  function HookEffects(h: BaseAuth.Hook): seq<Effect<NavigationEvent>>
  {
    match h
    case Loading => [SetState(UiState.Loading)]
    case GoogleError(msg) => [SetDescription(msg), SetTitle("Google Sign In Failed"), SetState(UiState.Error)]
    case FacebookError(msg) => [SetDescription(msg), SetTitle("Facebook Sign In Failed"), SetState(UiState.Error)]
    case SocialLoginSuccess(token) => [StoreToken(token), SetState(UiState.Success), Emit(NavigateToHome)]
  }

  /** A successful sign-up sets Loading, then Success, stores the reply's
      token and only then emits NavigateToHome. */
  lemma SignUpSucceeds(v: View, response: Remote.ApiResponse)
    requires response.Success?
    ensures var t := SignUpEffects(Remote.Returned(response));
      t[0] == SetState(UiState.Loading) &&
      Apply(v, t) == v.(state := UiState.Success, token := Some(response.data.token)) &&
      Emitted(t) == [NavigateToHome] &&
      HomeOnlyWhenSignedIn(v, t, NavigateToHome)
  {
    var loading: SignUpEffect := SetState(UiState.Loading);
    var success: SignUpEffect := SetState(UiState.Success);
    var stored: SignUpEffect := StoreToken(response.data.token);
    var t := SignUpEffects(Remote.Returned(response));
    assert t == [loading] + [success, stored, Emit(NavigateToHome)];
    ApplyCons(v, loading, [success, stored, Emit(NavigateToHome)]);
    Apply3(Step(v, loading), success, stored, Emit(NavigateToHome));
    assert t == [loading, success, stored] + [Emit(NavigateToHome)];
    HomeLast(v, [loading, success, stored], NavigateToHome, 2);
  }

  /** A sign-up the backend refused sets Loading, then Error with the strings
      of the failure table for its status code; it stores nothing and emits
      nothing. */
  lemma SignUpFails(v: View, response: Remote.ApiResponse)
    requires !response.Success?
    ensures var t := SignUpEffects(Remote.Returned(response));
      t[0] == SetState(UiState.Loading) &&
      Apply(v, t) == v.(state := UiState.Error,
                        title := FailureText(Remote.CodeOrZero(response)).0,
                        description := FailureText(Remote.CodeOrZero(response)).1) &&
      OnlyWrites(t) && StoresNothing(t) && Emitted(t) == [] &&
      HomeOnlyWhenSignedIn(v, t, NavigateToHome)
  {
    var code := Remote.CodeOrZero(response);
    var loading: SignUpEffect := SetState(UiState.Loading);
    var generic: seq<SignUpEffect> := [SetTitle("Sign In Failed"), SetDescription("Failed to sign up")];
    var fix: seq<SignUpEffect> :=
      if code == 400 then [SetTitle("Invalid Credintials"), SetDescription("Please enter correct details.")] else [];
    var err: SignUpEffect := SetState(UiState.Error);
    var t := SignUpEffects(Remote.Returned(response));
    assert t == ([loading] + generic) + (fix + [err]);
    ApplyAppend(v, [loading] + generic, fix + [err]);
    ApplyCons(v, loading, generic);
    ApplyCons(Step(v, loading), generic[0], [generic[1]]);
    ApplyCons(Step(Step(v, loading), generic[0]), generic[1], []);
    var v2 := Apply(v, [loading] + generic);
    ApplyAppend(v2, fix, [err]);
    ApplyCons(Apply(v2, fix), err, []);
    if code == 400 {
      ApplyCons(v2, fix[0], [fix[1]]);
      ApplyCons(Step(v2, fix[0]), fix[1], []);
    }
    assert OnlyWrites([loading] + generic) && OnlyWrites(fix + [err]);
    OnlyWritesAppend([loading] + generic, fix + [err]);
    OnlyWritesQuiet(v, t, NavigateToHome);
  }

  /** When an exception escapes the call, the state goes Loading then Error
      and the error strings keep whatever they held before. */
  lemma SignUpThrows(v: View)
    ensures var t := SignUpEffects(Remote.Threw);
      Apply(v, t) == v.(state := UiState.Error) &&
      OnlyWrites(t) && StoresNothing(t) && Emitted(t) == [] &&
      HomeOnlyWhenSignedIn(v, t, NavigateToHome)
  {
    var t := SignUpEffects(Remote.Threw);
    var loading: SignUpEffect := SetState(UiState.Loading);
    var err: SignUpEffect := SetState(UiState.Error);
    assert t == [loading] + [err];
    ApplyCons(v, loading, [err]);
    ApplyCons(Step(v, loading), err, []);
    OnlyWritesQuiet(v, t, NavigateToHome);
  }

  /** The hooks as this screen implements them: an error hook sets the title
      for its provider, the description to the message and state Error, and
      emits nothing; the success hook stores the token, sets Success, then
      navigates home. */
  lemma HookOutcome(v: View, h: BaseAuth.Hook)
    ensures var t := HookEffects(h);
      HomeOnlyWhenSignedIn(v, t, NavigateToHome) &&
      match h
      case Loading =>
        Apply(v, t) == v.(state := UiState.Loading) && Emitted(t) == [] && StoresNothing(t)
      case GoogleError(msg) =>
        Apply(v, t) == v.(state := UiState.Error, title := "Google Sign In Failed", description := msg) &&
        Emitted(t) == [] && StoresNothing(t)
      case FacebookError(msg) =>
        Apply(v, t) == v.(state := UiState.Error, title := "Facebook Sign In Failed", description := msg) &&
        Emitted(t) == [] && StoresNothing(t)
      case SocialLoginSuccess(token) =>
        Apply(v, t) == v.(state := UiState.Success, token := Some(token)) && Emitted(t) == [NavigateToHome]
  {
    var error: SignUpEffect := SetState(UiState.Error);
    match h
    case Loading =>
      ApplyCons(v, HookEffects(h)[0], []);
    case GoogleError(msg) =>
      Apply3(v, SetDescription(msg), SetTitle("Google Sign In Failed"), error);
      OnlyWritesQuiet(v, HookEffects(h), NavigateToHome);
    case FacebookError(msg) =>
      Apply3(v, SetDescription(msg), SetTitle("Facebook Sign In Failed"), error);
      OnlyWritesQuiet(v, HookEffects(h), NavigateToHome);
    case SocialLoginSuccess(token) =>
      var stored: SignUpEffect := StoreToken(token);
      var success: SignUpEffect := SetState(UiState.Success);
      Apply3(v, stored, success, Emit(NavigateToHome));
      assert HookEffects(h) == [stored, success] + [Emit(NavigateToHome)];
      HomeLast(v, [stored, success], NavigateToHome, 0);
  }

  class SignUpViewModel {
    var uiState: UiState
    var error: string
    var errorDescription: string
    var name: string
    var email: string
    var password: string
    var storedToken: Option<string>
    var events: seq<NavigationEvent>
    /** The view at construction and every effect performed since. */
    ghost var start: View
    ghost var trace: seq<Effect<NavigationEvent>>

    function Current(): View
      reads this
    {
      View(uiState, error, errorDescription, storedToken)
    }

    /** The fields are the fold of the effects performed so far, the event
        stream is what they emitted, and home was only ever reached signed in. */
    ghost predicate Valid()
      reads this
    {
      Current() == Apply(start, trace) &&
      events == Emitted(trace) &&
      HomeOnlyWhenSignedIn(start, trace, NavigateToHome)
    }

    constructor (session: Option<string>)
      ensures Valid() && trace == [] && start == InitialView(session)
      ensures uiState == UiState.Nothing && error == "" && errorDescription == ""
      ensures name == "" && email == "" && password == "" && storedToken == session && events == []
    {
      uiState, error, errorDescription := UiState.Nothing, "", "";
      name, email, password := "", "", "";
      storedToken, events := session, [];
      start, trace := InitialView(session), [];
    }

    method OnEmailChange(value: string)
      requires Valid()
      modifies `email
      ensures Valid() && email == value
    {
      email := value;
    }

    method OnPasswordChange(value: string)
      requires Valid()
      modifies `password
      ensures Valid() && password == value
    {
      password := value;
    }

    method OnNameChange(value: string)
      requires Valid()
      modifies `name
      ensures Valid() && name == value
    {
      name := value;
    }

    /** Appends the effects a handler has performed, in order, to the trace. */
    ghost method Record(effects: seq<SignUpEffect>)
      requires HomeOnlyWhenSignedIn(start, trace, NavigateToHome)
      requires HomeOnlyWhenSignedIn(Apply(start, trace), effects, NavigateToHome)
      requires Current() == Apply(Apply(start, trace), effects)
      requires events == Emitted(trace) + Emitted(effects)
      modifies `trace
      ensures Valid() && trace == old(trace) + effects
    {
      Extend(start, trace, effects, NavigateToHome);
      trace := trace + effects;
    }

    /** onSignUpClick, with the backend as `server`: the request carries the
        current name, email and password; an exception escaping the call
        only sets Error. */
    method OnSignUpClick(server: Remote.SignUpRequest -> Remote.Call)
      requires Valid()
      modifies this
      ensures Valid() && start == old(start)
      ensures name == old(name) && email == old(email) && password == old(password)
      ensures var call := server(Remote.SignUpRequest(name, email, password));
        trace == old(trace) + SignUpEffects(call) &&
        match call
        case Threw =>
          uiState == UiState.Error &&
          error == old(error) && errorDescription == old(errorDescription) &&
          storedToken == old(storedToken) && events == old(events)
        case Returned(response) =>
          if response.Success? then
            uiState == UiState.Success && storedToken == Some(response.data.token) &&
            events == old(events) + [NavigateToHome] &&
            error == old(error) && errorDescription == old(errorDescription)
          else
            uiState == UiState.Error &&
            (error, errorDescription) == FailureText(Remote.CodeOrZero(response)) &&
            storedToken == old(storedToken) && events == old(events)
    {
      uiState := UiState.Loading;
      var call := server(Remote.SignUpRequest(name, email, password));
      match call {
        case Threw =>
          Crash();
        case Returned(response) =>
          if response.Success? {
            Accept(response);
          } else {
            Reject(response);
          }
      }
    }

    /** The handler has set Loading, its first effect, and nothing else
        since the trace was last extended. */
    ghost predicate AwaitingReply()
      reads this
    {
      Current() == Apply(start, trace).(state := UiState.Loading) &&
      events == Emitted(trace) &&
      HomeOnlyWhenSignedIn(start, trace, NavigateToHome)
    }

    /** The catch block of onSignUpClick: the exception only sets Error. */
    method Crash()
      requires AwaitingReply()
      modifies this
      ensures Valid() && start == old(start) && trace == old(trace) + SignUpEffects(Remote.Threw)
      ensures uiState == UiState.Error && error == old(error) && errorDescription == old(errorDescription)
      ensures storedToken == old(storedToken) && events == old(events)
      ensures name == old(name) && email == old(email) && password == old(password)
    {
      ghost var c := Cursor(Current(), events, CallEffects(Remote.Threw));
      uiState := UiState.Error;
      c := Advance(c, SetState(UiState.Error), Current(), events);
      assert c.rest == [];
      Settle(Remote.Threw);
    }

    /** The success branch of onSignUpClick: Success, the token, then home. */
    method Accept(response: Remote.ApiResponse)
      requires response.Success? && AwaitingReply()
      modifies this
      ensures Valid() && start == old(start) && trace == old(trace) + SignUpEffects(Remote.Returned(response))
      ensures uiState == UiState.Success && storedToken == Some(response.data.token)
      ensures events == old(events) + [NavigateToHome]
      ensures error == old(error) && errorDescription == old(errorDescription)
      ensures name == old(name) && email == old(email) && password == old(password)
    {
      ghost var c := Cursor(Current(), events, CallEffects(Remote.Returned(response)));
      uiState := UiState.Success;
      c := Advance(c, SetState(UiState.Success), Current(), events);
      storedToken := Some(response.data.token);
      c := Advance(c, StoreToken(response.data.token), Current(), events);
      events := events + [NavigateToHome];
      c := Advance(c, Emit(NavigateToHome), Current(), events);
      assert c.rest == [];
      Settle(Remote.Returned(response));
    }

    /** The failure branch of onSignUpClick: the error strings, then Error. */
    method Reject(response: Remote.ApiResponse)
      requires !response.Success? && AwaitingReply()
      modifies this
      ensures Valid() && start == old(start) && trace == old(trace) + SignUpEffects(Remote.Returned(response))
      ensures uiState == UiState.Error
      ensures (error, errorDescription) == FailureText(Remote.CodeOrZero(response))
      ensures storedToken == old(storedToken) && events == old(events)
      ensures name == old(name) && email == old(email) && password == old(password)
    {
      ghost var c := Cursor(Current(), events, CallEffects(Remote.Returned(response)));
      c := WriteFailureText(response, c);
      uiState := UiState.Error;
      c := Advance(c, SetState(UiState.Error), Current(), events);
      assert c.rest == [];
      Settle(Remote.Returned(response));
    }

    /** The string writes of the failure branch, as the first effects of the
        cursor: the generic title and description, then for status 400 the
        title and description that replace them. */
    method WriteFailureText(response: Remote.ApiResponse, ghost c: Cursor<NavigationEvent>)
      returns (ghost r: Cursor<NavigationEvent>)
      requires !response.Success? && c.rest == ResponseEffects(response)
      requires c.view == Current() && c.events == events
      modifies `error, `errorDescription
      ensures r.view == Current() && r.events == events && r.rest == [SetState(UiState.Error)]
      ensures Apply(r.view, r.rest) == Apply(c.view, c.rest)
      ensures r.events + Emitted(r.rest) == c.events + Emitted(c.rest)
    {
      var code := Remote.CodeOrZero(response);
      r := c;
      error := "Sign In Failed";
      r := Advance(r, SetTitle("Sign In Failed"), Current(), events);
      errorDescription := "Failed to sign up";
      r := Advance(r, SetDescription("Failed to sign up"), Current(), events);
      if code == 400 {
        error := "Invalid Credintials";
        r := Advance(r, SetTitle("Invalid Credintials"), Current(), events);
        errorDescription := "Please enter correct details.";
        r := Advance(r, SetDescription("Please enter correct details."), Current(), events);
      }
    }

    /** Closes onSignUpClick once the call's effects are all performed: with
        Loading before them, they are the whole handler, and the view is the
        one SignUpSucceeds, SignUpFails or SignUpThrows gives. */
    ghost method Settle(call: Remote.Call)
      requires HomeOnlyWhenSignedIn(start, trace, NavigateToHome)
      requires Current() == Apply(Apply(start, trace).(state := UiState.Loading), CallEffects(call))
      requires events == Emitted(trace) + Emitted(CallEffects(call))
      modifies `trace
      ensures Valid() && trace == old(trace) + SignUpEffects(call)
      ensures var w := Apply(start, old(trace));
        match call
        case Threw =>
          Current() == w.(state := UiState.Error) && events == Emitted(old(trace))
        case Returned(response) =>
          if response.Success? then
            Current() == w.(state := UiState.Success, token := Some(response.data.token)) &&
            events == Emitted(old(trace)) + [NavigateToHome]
          else
            Current() == w.(state := UiState.Error,
                            title := FailureText(Remote.CodeOrZero(response)).0,
                            description := FailureText(Remote.CodeOrZero(response)).1) &&
            events == Emitted(old(trace))
    {
      var w := Apply(start, trace);
      var t := SignUpEffects(call);
      assert t == [t[0]] + CallEffects(call);
      ApplyCons(w, t[0], CallEffects(call));
      EmittedCons(t[0], CallEffects(call));
      match call {
        case Threw =>
          SignUpThrows(w);
        case Returned(response) =>
          if response.Success? {
            SignUpSucceeds(w, response);
          } else {
            SignUpFails(w, response);
          }
      }
      Record(t);
    }

    method OnLoginClicked()
      requires Valid()
      modifies this
      ensures Valid() && start == old(start)
      ensures events == old(events) + [NavigateToLogin]
      ensures trace == old(trace) + [Emit(NavigateToLogin)]
      ensures Current() == old(Current()) && name == old(name) && email == old(email) && password == old(password)
    {
      ghost var t: seq<SignUpEffect> := [Emit(NavigateToLogin)];
      ghost var c := Cursor(Current(), events, t);
      events := events + [NavigateToLogin];
      c := Advance(c, Emit(NavigateToLogin), Current(), events);
      EmittedCons(t[0], []);
      assert t == [t[0]] + [];
      NeverHomeGuarded(Current(), t, NavigateToHome);
      ApplyCons(Current(), t[0], []);
      Record(t);
    }

    method Loading()
      requires Valid()
      modifies this
      ensures Valid() && start == old(start)
      ensures trace == old(trace) + HookEffects(BaseAuth.Loading)
      ensures Current() == old(Current()).(state := UiState.Loading) && events == old(events)
      ensures name == old(name) && email == old(email) && password == old(password)
    {
      ghost var t := HookEffects(BaseAuth.Loading);
      ghost var c := Cursor(Current(), events, t);
      uiState := UiState.Loading;
      c := Advance(c, SetState(UiState.Loading), Current(), events);
      assert c.rest == [];
      HookOutcome(old(Current()), BaseAuth.Loading);
      Record(t);
    }

    method OnGoogleError(msg: string)
      requires Valid()
      modifies this
      ensures Valid() && start == old(start)
      ensures trace == old(trace) + HookEffects(BaseAuth.GoogleError(msg))
      ensures uiState == UiState.Error && error == "Google Sign In Failed" && errorDescription == msg
      ensures storedToken == old(storedToken) && events == old(events)
      ensures name == old(name) && email == old(email) && password == old(password)
    {
      ghost var t := HookEffects(BaseAuth.GoogleError(msg));
      ghost var c := Cursor(Current(), events, t);
      errorDescription := msg;
      c := Advance(c, SetDescription(msg), Current(), events);
      error := "Google Sign In Failed";
      c := Advance(c, SetTitle("Google Sign In Failed"), Current(), events);
      uiState := UiState.Error;
      c := Advance(c, SetState(UiState.Error), Current(), events);
      assert c.rest == [];
      HookOutcome(old(Current()), BaseAuth.GoogleError(msg));
      Record(t);
    }

    method OnFacebookError(msg: string)
      requires Valid()
      modifies this
      ensures Valid() && start == old(start)
      ensures trace == old(trace) + HookEffects(BaseAuth.FacebookError(msg))
      ensures uiState == UiState.Error && error == "Facebook Sign In Failed" && errorDescription == msg
      ensures storedToken == old(storedToken) && events == old(events)
      ensures name == old(name) && email == old(email) && password == old(password)
    {
      ghost var t := HookEffects(BaseAuth.FacebookError(msg));
      ghost var c := Cursor(Current(), events, t);
      errorDescription := msg;
      c := Advance(c, SetDescription(msg), Current(), events);
      error := "Facebook Sign In Failed";
      c := Advance(c, SetTitle("Facebook Sign In Failed"), Current(), events);
      uiState := UiState.Error;
      c := Advance(c, SetState(UiState.Error), Current(), events);
      assert c.rest == [];
      HookOutcome(old(Current()), BaseAuth.FacebookError(msg));
      Record(t);
    }

    method OnSocialLoginSuccess(token: string)
      requires Valid()
      modifies this
      ensures Valid() && start == old(start)
      ensures trace == old(trace) + HookEffects(BaseAuth.SocialLoginSuccess(token))
      ensures uiState == UiState.Success && storedToken == Some(token)
      ensures events == old(events) + [NavigateToHome]
      ensures error == old(error) && errorDescription == old(errorDescription)
      ensures name == old(name) && email == old(email) && password == old(password)
    {
      ghost var t := HookEffects(BaseAuth.SocialLoginSuccess(token));
      ghost var c := Cursor(Current(), events, t);
      storedToken := Some(token);
      c := Advance(c, StoreToken(token), Current(), events);
      uiState := UiState.Success;
      c := Advance(c, SetState(UiState.Success), Current(), events);
      events := events + [NavigateToHome];
      c := Advance(c, Emit(NavigateToHome), Current(), events);
      assert c.rest == [];
      HookOutcome(old(Current()), BaseAuth.SocialLoginSuccess(token));
      Record(t);
    }

    /** The base flow calling hook `h`: dispatch to this class's override. */
    method Run(h: BaseAuth.Hook)
      requires Valid()
      modifies this
      ensures Valid() && start == old(start)
      ensures trace == old(trace) + HookEffects(h)
      ensures Current() == Apply(old(Current()), HookEffects(h))
      ensures events == old(events) + Emitted(HookEffects(h))
      ensures name == old(name) && email == old(email) && password == old(password)
    {
      HookOutcome(Current(), h);
      match h
      case Loading => Loading();
      case GoogleError(msg) => OnGoogleError(msg);
      case FacebookError(msg) => OnFacebookError(msg);
      case SocialLoginSuccess(token) => OnSocialLoginSuccess(token);
    }

    /** onGoogleClicked / onFacebookClicked: the shared social login with the
        adapter's result `a` and the backend as `server`.  The base flow calls
        loading() and then exactly one outcome hook. */
    method OnSocialClicked(a: BaseAuth.Adapter, server: Remote.OAuthRequest -> Remote.ApiResponse)
      requires Valid()
      modifies this
      ensures Valid() && start == old(start)
      ensures BaseAuth.EndsInHook(BaseAuth.SocialLogin(a, server))
      ensures var h := BaseAuth.Outcome(BaseAuth.SocialLogin(a, server));
        trace == old(trace) + HookEffects(BaseAuth.Loading) + HookEffects(h) &&
        if h.SocialLoginSuccess? then
          uiState == UiState.Success && storedToken == Some(h.token) &&
          events == old(events) + [NavigateToHome] &&
          error == old(error) && errorDescription == old(errorDescription)
        else
          uiState == UiState.Error && errorDescription == h.msg &&
          error == (if h.GoogleError? then "Google Sign In Failed" else "Facebook Sign In Failed") &&
          storedToken == old(storedToken) && events == old(events)
      ensures name == old(name) && email == old(email) && password == old(password)
    {
      var steps := BaseAuth.SocialLogin(a, server);
      BaseAuth.ExactlyOneOutcome(a, server);
      var hooks := BaseAuth.Hooks(steps);
      ghost var before := Current();
      Run(hooks[0]);
      ghost var middle := Current();
      Run(hooks[1]);
      HookOutcome(before, BaseAuth.Loading);
      HookOutcome(middle, hooks[1]);
    }
  }
}
