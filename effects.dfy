/** The observable state of an authentication screen and the ordered side
    effects its handlers perform.

    Every auth view-model exposes the same closed UI state (Nothing, Loading,
    Success, Error), two error strings shown in the error sheet, the session's
    stored token and a stream of one-shot navigation events.  A handler is
    modelled by the list of effects it performs, in source order; the state
    after a run of handlers is the fold of those effects over a View.  */
module Effects {

  datatype Option<+T> = None | Some(value: T)

  /** SignInEvent / SignupEvent / AuthEvent: the four mutually exclusive UI states. */
  datatype UiState = Nothing | Loading | Success | Error

  /** One side effect, in the order a handler performs it. */
  datatype Effect<E> =
    | SetState(state: UiState)          // _uiState.value = ...
    | SetTitle(title: string)           // error = ...
    | SetDescription(description: string) // errorDescription = ...
    | StoreToken(token: string)         // session.storeToken(...)
    | Emit(event: E)                    // _navigationEvent.emit(...)

  /** What a screen shows, together with the token the session holds. */
  datatype View = View(state: UiState, title: string, description: string, token: Option<string>)

  /** The view every auth view-model starts from: state Nothing, both error
      strings empty, and whatever token the session already holds. */
  function InitialView(session: Option<string>): View
  {
    View(Nothing, "", "", session)
  }

  function Step<E>(v: View, e: Effect<E>): View
  {
    match e
    case SetState(s) => v.(state := s)
    case SetTitle(t) => v.(title := t)
    case SetDescription(d) => v.(description := d)
    case StoreToken(k) => v.(token := Some(k))
    case Emit(_) => v
  }

  /** The view after performing the effects of `t`, starting from `v`. */
  function Apply<E>(v: View, t: seq<Effect<E>>): View
    decreases |t|
  {
    if t == [] then v else Apply(Step(v, t[0]), t[1..])
  }

  /** The events `t` emits, in order. */
  function Emitted<E>(t: seq<Effect<E>>): seq<E>
    decreases |t|
  {
    if t == [] then []
    else (if t[0].Emit? then [t[0].event] else []) + Emitted(t[1..])
  }

  predicate StoresNothing<E>(t: seq<Effect<E>>)
  {
    forall i :: 0 <= i < |t| ==> !t[i].StoreToken?
  }

  /** Effects that only assign the UI state and the error strings. */
  predicate OnlyWrites<E>(t: seq<Effect<E>>)
  {
    forall i :: 0 <= i < |t| ==> t[i].SetState? || t[i].SetTitle? || t[i].SetDescription?
  }

  /** Some effect of `t` stores a token. */
  predicate StoresSome<E>(t: seq<Effect<E>>)
  {
    exists j :: 0 <= j < |t| && t[j].StoreToken?
  }

  /** Every emission of `home` happens while the state is Success and after
      some token was stored earlier in `t`, stated effect by effect from the
      end (HomeGuardMeaning gives it as one quantified statement).  The store
      may belong to an earlier handler; that each handler which navigates
      home stores its own token first is stated by the per-handler lemmas. */
  ghost predicate HomeOnlyWhenSignedIn<E>(v: View, t: seq<Effect<E>>, home: E)
    decreases |t|
  {
    t == [] ||
    (HomeOnlyWhenSignedIn(v, t[..|t| - 1], home) &&
     (t[|t| - 1] == Emit(home) ==>
        Apply(v, t[..|t| - 1]).state == Success && StoresSome(t[..|t| - 1])))
  }

  /** The guard, read as a statement about every position of `t`. */
  lemma {:induction false} HomeGuardMeaning<E>(v: View, t: seq<Effect<E>>, home: E)
    ensures HomeOnlyWhenSignedIn(v, t, home) <==>
      forall i :: 0 <= i < |t| && t[i] == Emit(home) ==>
        Apply(v, t[..i]).state == Success && StoresSome(t[..i])
    decreases |t|
  {
    if t != [] {
      var p := t[..|t| - 1];
      HomeGuardMeaning(v, p, home);
      assert t[..|p|] == p;
      forall i | 0 <= i < |p|
        ensures t[i] == p[i] && t[..i] == p[..i]
      {
      }
    }
  }

  /** A trace that never emits `home` keeps the guard. */
  lemma {:induction false} NoHomeGuarded<E>(v: View, t: seq<Effect<E>>, home: E)
    requires forall i :: 0 <= i < |t| ==> t[i] != Emit(home)
    ensures HomeOnlyWhenSignedIn(v, t, home)
    decreases |t|
  {
    if t != [] {
      var p := t[..|t| - 1];
      forall i | 0 <= i < |p| ensures p[i] != Emit(home) {
        assert p[i] == t[i];
      }
      NoHomeGuarded(v, p, home);
    }
  }

  /** A handler part-way through its effect list: the view and the events as
      they stand, and the effects it has still to perform. */
  datatype Cursor<E> = Cursor(view: View, events: seq<E>, rest: seq<Effect<E>>)

  /** The cursor after the handler has performed `e`, giving `now` and
      `evs`; the precondition checks that `e` is the next effect of the list
      and that the write made was that effect.  The outcome of the whole list
      does not move. */
  function Advance<E>(c: Cursor<E>, e: Effect<E>, now: View, evs: seq<E>): (r: Cursor<E>)
    requires c.rest != [] && c.rest[0] == e && now == Step(c.view, e)
    requires evs == c.events + (if e.Emit? then [e.event] else [])
    ensures r.view == now && r.events == evs && |r.rest| == |c.rest| - 1
    ensures Apply(r.view, r.rest) == Apply(c.view, c.rest)
    ensures r.events + Emitted(r.rest) == c.events + Emitted(c.rest)
  {
    Cursor(now, evs, c.rest[1..])
  }

  /** One unfolding of Apply at the head of a list. */
  lemma ApplyCons<E>(v: View, e: Effect<E>, t: seq<Effect<E>>)
    ensures Apply(v, [e] + t) == Apply(Step(v, e), t)
  {
    assert ([e] + t)[1..] == t;
  }

  /** One unfolding of Emitted at the head of a list. */
  lemma EmittedCons<E>(e: Effect<E>, t: seq<Effect<E>>)
    ensures Emitted([e] + t) == (if e.Emit? then [e.event] else []) + Emitted(t)
  {
    assert ([e] + t)[1..] == t;
  }

  /** Apply and Emitted on a handler of three effects. */
  lemma Apply3<E>(v: View, a: Effect<E>, b: Effect<E>, c: Effect<E>)
    ensures Apply(v, [a, b, c]) == Step(Step(Step(v, a), b), c)
    ensures Emitted([a, b, c]) == Emitted([a]) + Emitted([b]) + Emitted([c])
  {
    ApplyCons(v, a, [b, c]);
    ApplyCons(Step(v, a), b, [c]);
    ApplyCons(Step(Step(v, a), b), c, []);
    assert [a, b, c] == [a] + [b, c] && [b, c] == [b] + [c];
    assert [a] == [a] + [] && [b] == [b] + [] && [c] == [c] + [];
    EmittedCons(a, [b, c]);
    EmittedCons(b, [c]);
    EmittedCons(a, []);
    EmittedCons(b, []);
    EmittedCons(c, []);
  }

  /** Performing `t` and then `u` is performing `t + u`. */
  lemma {:induction false} ApplyAppend<E>(v: View, t: seq<Effect<E>>, u: seq<Effect<E>>)
    ensures Apply(v, t + u) == Apply(Apply(v, t), u)
    decreases |t|
  {
    if t == [] {
      assert t + u == u;
    } else {
      assert (t + u)[1..] == t[1..] + u;
      ApplyAppend(Step(v, t[0]), t[1..], u);
    }
  }

  /** The events of `t + u` are those of `t` followed by those of `u`. */
  lemma {:induction false} EmittedAppend<E>(t: seq<Effect<E>>, u: seq<Effect<E>>)
    ensures Emitted(t + u) == Emitted(t) + Emitted(u)
    decreases |t|
  {
    if t == [] {
      assert t + u == u;
    } else {
      var head: seq<E> := if t[0].Emit? then [t[0].event] else [];
      assert (t + u)[0] == t[0] && (t + u)[1..] == t[1..] + u;
      EmittedAppend(t[1..], u);
      calc {
        Emitted(t + u);
        head + Emitted(t[1..] + u);
        head + (Emitted(t[1..]) + Emitted(u));
        (head + Emitted(t[1..])) + Emitted(u);
      }
    }
  }

  /** A handler that stores a token and emits `home` as its last effect, in
      state Success, keeps the guard; the emission itself changes no field. */
  lemma HomeLast<E>(v: View, p: seq<Effect<E>>, home: E, j: nat)
    requires j < |p| && p[j].StoreToken?
    requires forall i :: 0 <= i < |p| ==> p[i] != Emit(home)
    requires Apply(v, p + [Emit(home)]).state == Success
    ensures Apply(v, p + [Emit(home)]) == Apply(v, p)
    ensures HomeOnlyWhenSignedIn(v, p + [Emit(home)], home)
  {
    var t := p + [Emit(home)];
    ApplyAppend(v, p, [Emit(home)]);
    ApplyCons(Apply(v, p), Emit(home), []);
    assert t[..|t| - 1] == p;
    NoHomeGuarded(v, p, home);
  }

  lemma OnlyWritesAppend<E>(t: seq<Effect<E>>, u: seq<Effect<E>>)
    requires OnlyWrites(t) && OnlyWrites(u)
    ensures OnlyWrites(t + u)
  {
  }

  /** A handler that only assigns the state and error strings stores nothing,
      emits nothing and so keeps the guard. */
  lemma {:induction false} OnlyWritesQuiet<E>(v: View, t: seq<Effect<E>>, home: E)
    requires OnlyWrites(t)
    ensures StoresNothing(t) && Emitted(t) == [] && HomeOnlyWhenSignedIn(v, t, home)
    decreases |t|
  {
    if t != [] {
      assert t == [t[0]] + t[1..];
      assert OnlyWrites(t[1..]) by {
        forall i | 0 <= i < |t[1..]| ensures t[1..][i] == t[i + 1] {}
      }
      OnlyWritesQuiet(v, t[1..], home);
      EmittedCons(t[0], t[1..]);
    }
    NoHomeGuarded(v, t, home);
  }

  /** An event that `t` does not emit appears at no position of `t`. */
  lemma {:induction false} NotEmittedNowhere<E>(t: seq<Effect<E>>, e: E)
    requires e !in Emitted(t)
    ensures forall i :: 0 <= i < |t| ==> t[i] != Emit(e)
    decreases |t|
  {
    if t != [] {
      assert t == [t[0]] + t[1..];
      EmittedCons(t[0], t[1..]);
      NotEmittedNowhere(t[1..], e);
      forall i | 1 <= i < |t| ensures t[i] != Emit(e) {
        assert t[i] == t[1..][i - 1];
      }
    }
  }

  /** A handler that never emits `home` keeps the guard. */
  lemma NeverHomeGuarded<E>(v: View, t: seq<Effect<E>>, home: E)
    requires home !in Emitted(t)
    ensures HomeOnlyWhenSignedIn(v, t, home)
  {
    NotEmittedNowhere(t, home);
    NoHomeGuarded(v, t, home);
  }

  /** The guard survives running one handler's effects `u` after the trace `t`. */
  lemma {:induction false} HomeOnlyWhenSignedInAppend<E>(v: View, t: seq<Effect<E>>, u: seq<Effect<E>>, home: E)
    requires HomeOnlyWhenSignedIn(v, t, home)
    requires HomeOnlyWhenSignedIn(Apply(v, t), u, home)
    ensures HomeOnlyWhenSignedIn(v, t + u, home)
    decreases |u|
  {
    if u == [] {
      assert t + u == t;
    } else {
      var p := u[..|u| - 1];
      var w := t + u;
      assert w[..|w| - 1] == t + p && w[|w| - 1] == u[|u| - 1];
      HomeOnlyWhenSignedInAppend(v, t, p, home);
      if u[|u| - 1] == Emit(home) {
        ApplyAppend(v, t, p);
        var j :| 0 <= j < |p| && p[j].StoreToken?;
        assert (t + p)[|t| + j] == p[j];
      }
    }
  }

  /** Everything the class invariants need when a handler appends `u` to the trace `t`. */
  lemma Extend<E>(v: View, t: seq<Effect<E>>, u: seq<Effect<E>>, home: E)
    requires HomeOnlyWhenSignedIn(v, t, home)
    requires HomeOnlyWhenSignedIn(Apply(v, t), u, home)
    ensures Apply(v, t + u) == Apply(Apply(v, t), u)
    ensures Emitted(t + u) == Emitted(t) + Emitted(u)
    ensures HomeOnlyWhenSignedIn(v, t + u, home)
  {
    ApplyAppend(v, t, u);
    EmittedAppend(t, u);
    HomeOnlyWhenSignedInAppend(v, t, u, home);
  }
}
