/** The landing auth screen's view-model: social login only.  Unlike the
    sign-in and sign-up screens, its error hooks also ask the screen to show
    an error dialog, and the two providers do so in different orders. */
module AuthScreen {
  import opened Effects
  import Remote
  import BaseAuth

  datatype NavigationEvent = NavigateToSignUp | NavigateToHome | ShowErrorDialog

  type AuthEffect = Effect<NavigationEvent>

  /** This view-model's overrides of the base flow's hooks: Google sets the
      strings, then Error, then asks for the dialog; Facebook asks for the
      dialog before setting Error. */
  function HookEffects(h: BaseAuth.Hook): seq<AuthEffect>
  {
    match h
    case Loading => [SetState(UiState.Loading)]
    case GoogleError(msg) =>
      [SetDescription(msg), SetTitle("Google Sign In Failed"), SetState(UiState.Error), Emit(ShowErrorDialog)]
    case FacebookError(msg) =>
      [SetDescription(msg), SetTitle("Facebook Sign In Failed"), Emit(ShowErrorDialog), SetState(UiState.Error)]
    case SocialLoginSuccess(token) =>
      [StoreToken(token), SetState(UiState.Success), Emit(NavigateToHome)]
  }

  /** Loading touches only the state; an error hook sets the title for its
      provider, the description to the message and state Error, stores
      nothing and shows the error dialog once; the success hook stores the
      token, sets Success, then navigates home. */
  lemma HookOutcome(v: View, h: BaseAuth.Hook)
    ensures var t := HookEffects(h);
      HomeOnlyWhenSignedIn(v, t, NavigateToHome) &&
      match h
      case Loading =>
        Apply(v, t) == v.(state := UiState.Loading) && Emitted(t) == [] && StoresNothing(t)
      case GoogleError(msg) =>
        Apply(v, t) == v.(state := UiState.Error, title := "Google Sign In Failed", description := msg) &&
        Emitted(t) == [ShowErrorDialog] && StoresNothing(t)
      case FacebookError(msg) =>
        Apply(v, t) == v.(state := UiState.Error, title := "Facebook Sign In Failed", description := msg) &&
        Emitted(t) == [ShowErrorDialog] && StoresNothing(t)
      case SocialLoginSuccess(token) =>
        Apply(v, t) == v.(state := UiState.Success, token := Some(token)) && Emitted(t) == [NavigateToHome]
  {
    var error: AuthEffect := SetState(UiState.Error);
    var dialog: AuthEffect := Emit(ShowErrorDialog);
    match h
    case Loading =>
      ApplyCons(v, HookEffects(h)[0], []);
    case GoogleError(msg) =>
      var description: AuthEffect := SetDescription(msg);
      assert HookEffects(h) == [description] + [SetTitle("Google Sign In Failed"), error, dialog];
      ApplyCons(v, description, [SetTitle("Google Sign In Failed"), error, dialog]);
      Apply3(Step(v, description), SetTitle("Google Sign In Failed"), error, dialog);
      NeverHomeGuarded(v, HookEffects(h), NavigateToHome);
    case FacebookError(msg) =>
      var description: AuthEffect := SetDescription(msg);
      assert HookEffects(h) == [description] + [SetTitle("Facebook Sign In Failed"), dialog, error];
      ApplyCons(v, description, [SetTitle("Facebook Sign In Failed"), dialog, error]);
      Apply3(Step(v, description), SetTitle("Facebook Sign In Failed"), dialog, error);
      NeverHomeGuarded(v, HookEffects(h), NavigateToHome);
    case SocialLoginSuccess(token) =>
      var stored: AuthEffect := StoreToken(token);
      var success: AuthEffect := SetState(UiState.Success);
      Apply3(v, stored, success, Emit(NavigateToHome));
      assert HookEffects(h) == [stored, success] + [Emit(NavigateToHome)];
      HomeLast(v, [stored, success], NavigateToHome, 0);
  }

  /** When the error dialog is requested, both strings are already set; on
      the Google path the state is already Error, while on the Facebook path
      it is still what it was before the hook (Loading, after a login). */
  lemma ErrorDialogTiming(v: View, msg: string)
    ensures var g := HookEffects(BaseAuth.GoogleError(msg));
      g[3] == Emit(ShowErrorDialog) &&
      Apply(v, g[..3]) == v.(state := UiState.Error, title := "Google Sign In Failed", description := msg)
    ensures var f := HookEffects(BaseAuth.FacebookError(msg));
      f[2] == Emit(ShowErrorDialog) &&
      Apply(v, f[..2]) == v.(title := "Facebook Sign In Failed", description := msg)
  {
    var g := HookEffects(BaseAuth.GoogleError(msg));
    var error: AuthEffect := SetState(UiState.Error);
    assert g[..3] == [SetDescription(msg), SetTitle("Google Sign In Failed"), error];
    Apply3(v, SetDescription(msg), SetTitle("Google Sign In Failed"), error);
    var f := HookEffects(BaseAuth.FacebookError(msg));
    var description: AuthEffect := SetDescription(msg);
    var title: AuthEffect := SetTitle("Facebook Sign In Failed");
    assert f[..2] == [description] + [title];
    ApplyCons(v, description, [title]);
    ApplyCons(Step(v, description), title, []);
  }

  class AuthScreenViewModel {
    var uiState: UiState
    var error: string
    var errorDescription: string
    var storedToken: Option<string>
    var events: seq<NavigationEvent>
    /** The view at construction and every effect performed since. */
    ghost var start: View
    ghost var trace: seq<AuthEffect>

    function Current(): View
      reads this
    {
      View(uiState, error, errorDescription, storedToken)
    }

    /** The fields are the fold of the effects performed so far, the event
        stream is what they emitted, and home was only ever reached signed in. */
    ghost predicate Valid()
      reads this
    {
      Current() == Apply(start, trace) &&
      events == Emitted(trace) &&
      HomeOnlyWhenSignedIn(start, trace, NavigateToHome)
    }

    constructor (session: Option<string>)
      ensures Valid() && trace == [] && start == InitialView(session)
      ensures uiState == UiState.Nothing && error == "" && errorDescription == ""
      ensures storedToken == session && events == []
    {
      uiState, error, errorDescription := UiState.Nothing, "", "";
      storedToken, events := session, [];
      start, trace := InitialView(session), [];
    }

    /** Appends the effects a handler has performed, in order, to the trace. */
    ghost method Record(effects: seq<AuthEffect>)
      requires HomeOnlyWhenSignedIn(start, trace, NavigateToHome)
      requires HomeOnlyWhenSignedIn(Apply(start, trace), effects, NavigateToHome)
      requires Current() == Apply(Apply(start, trace), effects)
      requires events == Emitted(trace) + Emitted(effects)
      modifies `trace
      ensures Valid() && trace == old(trace) + effects
    {
      Extend(start, trace, effects, NavigateToHome);
      trace := trace + effects;
    }

    method Loading()
      requires Valid()
      modifies this
      ensures Valid() && start == old(start)
      ensures trace == old(trace) + HookEffects(BaseAuth.Loading)
      ensures Current() == old(Current()).(state := UiState.Loading) && events == old(events)
    {
      ghost var t := HookEffects(BaseAuth.Loading);
      ghost var c := Cursor(Current(), events, t);
      uiState := UiState.Loading;
      c := Advance(c, SetState(UiState.Loading), Current(), events);
      assert c.rest == [];
      HookOutcome(old(Current()), BaseAuth.Loading);
      Record(t);
    }

    method OnGoogleError(msg: string)
      requires Valid()
      modifies this
      ensures Valid() && start == old(start)
      ensures trace == old(trace) + HookEffects(BaseAuth.GoogleError(msg))
      ensures uiState == UiState.Error && error == "Google Sign In Failed" && errorDescription == msg
      ensures storedToken == old(storedToken) && events == old(events) + [ShowErrorDialog]
    {
      ghost var t := HookEffects(BaseAuth.GoogleError(msg));
      ghost var c := Cursor(Current(), events, t);
      errorDescription := msg;
      c := Advance(c, SetDescription(msg), Current(), events);
      error := "Google Sign In Failed";
      c := Advance(c, SetTitle("Google Sign In Failed"), Current(), events);
      uiState := UiState.Error;
      c := Advance(c, SetState(UiState.Error), Current(), events);
      events := events + [ShowErrorDialog];
      c := Advance(c, Emit(ShowErrorDialog), Current(), events);
      assert c.rest == [];
      HookOutcome(old(Current()), BaseAuth.GoogleError(msg));
      Record(t);
    }

    method OnFacebookError(msg: string)
      requires Valid()
      modifies this
      ensures Valid() && start == old(start)
      ensures trace == old(trace) + HookEffects(BaseAuth.FacebookError(msg))
      ensures uiState == UiState.Error && error == "Facebook Sign In Failed" && errorDescription == msg
      ensures storedToken == old(storedToken) && events == old(events) + [ShowErrorDialog]
    {
      ghost var t := HookEffects(BaseAuth.FacebookError(msg));
      ghost var c := Cursor(Current(), events, t);
      errorDescription := msg;
      c := Advance(c, SetDescription(msg), Current(), events);
      error := "Facebook Sign In Failed";
      c := Advance(c, SetTitle("Facebook Sign In Failed"), Current(), events);
      events := events + [ShowErrorDialog];
      c := Advance(c, Emit(ShowErrorDialog), Current(), events);
      uiState := UiState.Error;
      c := Advance(c, SetState(UiState.Error), Current(), events);
      assert c.rest == [];
      HookOutcome(old(Current()), BaseAuth.FacebookError(msg));
      Record(t);
    }

    method OnSocialLoginSuccess(token: string)
      requires Valid()
      modifies this
      ensures Valid() && start == old(start)
      ensures trace == old(trace) + HookEffects(BaseAuth.SocialLoginSuccess(token))
      ensures uiState == UiState.Success && storedToken == Some(token)
      ensures events == old(events) + [NavigateToHome]
      ensures error == old(error) && errorDescription == old(errorDescription)
    {
      ghost var t := HookEffects(BaseAuth.SocialLoginSuccess(token));
      ghost var c := Cursor(Current(), events, t);
      storedToken := Some(token);
      c := Advance(c, StoreToken(token), Current(), events);
      uiState := UiState.Success;
      c := Advance(c, SetState(UiState.Success), Current(), events);
      events := events + [NavigateToHome];
      c := Advance(c, Emit(NavigateToHome), Current(), events);
      assert c.rest == [];
      HookOutcome(old(Current()), BaseAuth.SocialLoginSuccess(token));
      Record(t);
    }

    /** The base flow calling hook `h`: dispatch to this class's override. */
    method Run(h: BaseAuth.Hook)
      requires Valid()
      modifies this
      ensures Valid() && start == old(start)
      ensures trace == old(trace) + HookEffects(h)
      ensures Current() == Apply(old(Current()), HookEffects(h))
      ensures events == old(events) + Emitted(HookEffects(h))
    {
      HookOutcome(Current(), h);
      match h
      case Loading => Loading();
      case GoogleError(msg) => OnGoogleError(msg);
      case FacebookError(msg) => OnFacebookError(msg);
      case SocialLoginSuccess(token) => OnSocialLoginSuccess(token);
    }

    /** onGoogleClicked / onFacebookClicked: the shared social login with the
        adapter's result `a` and the backend as `server`.  The base flow calls
        loading() and then exactly one outcome hook. */
    method OnSocialClicked(a: BaseAuth.Adapter, server: Remote.OAuthRequest -> Remote.ApiResponse)
      requires Valid()
      modifies this
      ensures Valid() && start == old(start)
      ensures BaseAuth.EndsInHook(BaseAuth.SocialLogin(a, server))
      ensures var h := BaseAuth.Outcome(BaseAuth.SocialLogin(a, server));
        trace == old(trace) + HookEffects(BaseAuth.Loading) + HookEffects(h) &&
        if h.SocialLoginSuccess? then
          uiState == UiState.Success && storedToken == Some(h.token) &&
          events == old(events) + [NavigateToHome] &&
          error == old(error) && errorDescription == old(errorDescription)
        else
          uiState == UiState.Error && errorDescription == h.msg &&
          error == (if h.GoogleError? then "Google Sign In Failed" else "Facebook Sign In Failed") &&
          storedToken == old(storedToken) && events == old(events) + [ShowErrorDialog]
    {
      var steps := BaseAuth.SocialLogin(a, server);
      BaseAuth.ExactlyOneOutcome(a, server);
      var hooks := BaseAuth.Hooks(steps);
      ghost var before := Current();
      Run(hooks[0]);
      ghost var middle := Current();
      Run(hooks[1]);
      HookOutcome(before, BaseAuth.Loading);
      HookOutcome(middle, hooks[1]);
    }
  }
}
