/**
 The application store shipped in the scaffold (templates/src/stores/appStore.ts):
 a three-field record with four transitions, and the projection of it that the
 persistence layer saves. The record shapes are those of
 templates/src/types/index.ts.
 */
module AppStore {
  import opened Optional

  datatype Theme = Light | Dark

  datatype User = User(id: string, name: string, email: string)

  /** `user` is `None` for the source's `null`. */
  datatype AppState = AppState(user: Option<User>, isLoading: bool, theme: Theme)

  /** No user, not loading, light theme. */
  const Initial: AppState := AppState(None, false, Light)

  /** The other theme. */
  function Opposite(t: Theme): (r: Theme)
    ensures r != t
  {
    if t == Light then Dark else Light
  }

  function SetUser(s: AppState, u: Option<User>): (r: AppState)
    ensures r.user == u
    ensures r.isLoading == s.isLoading && r.theme == s.theme
  {
    s.(user := u)
  }

  function SetLoading(s: AppState, loading: bool): (r: AppState)
    ensures r.isLoading == loading
    ensures r.user == s.user && r.theme == s.theme
  {
    s.(isLoading := loading)
  }

  function SetTheme(s: AppState, t: Theme): (r: AppState)
    ensures r.theme == t
    ensures r.user == s.user && r.isLoading == s.isLoading
  {
    s.(theme := t)
  }

  function ToggleTheme(s: AppState): (r: AppState)
    ensures r.theme != s.theme
    ensures r.user == s.user && r.isLoading == s.isLoading
  {
    s.(theme := Opposite(s.theme))
  }

  /** The slice of the state the persistence layer saves. */
  datatype Persisted = Persisted(user: Option<User>, theme: Theme)

  /** `partialize`: keep `user` and `theme`, drop `isLoading`. */
  function Partialize(s: AppState): (p: Persisted)
    ensures p.user == s.user && p.theme == s.theme
  {
    Persisted(s.user, s.theme)
  }

  /** Toggling twice restores the state. */
  lemma ToggleInvolution(s: AppState)
    ensures ToggleTheme(ToggleTheme(s)) == s
  {
  }

  /** Toggling is setting the opposite theme: light goes to dark and dark to
      light. */
  lemma ToggleIsSetOpposite(s: AppState)
    ensures ToggleTheme(s) == SetTheme(s, Opposite(s.theme))
    ensures s.theme == Light ==> ToggleTheme(s).theme == Dark
    ensures s.theme == Dark ==> ToggleTheme(s).theme == Light
  {
  }

  /** Setting a theme twice is setting it once; the same holds for the other
      setters, and setting a field to its current value changes nothing. */
  lemma SettersIdempotent(s: AppState, u: Option<User>, loading: bool, t: Theme)
    ensures SetTheme(SetTheme(s, t), t) == SetTheme(s, t)
    ensures SetUser(SetUser(s, u), u) == SetUser(s, u)
    ensures SetLoading(SetLoading(s, loading), loading) == SetLoading(s, loading)
    ensures SetTheme(s, s.theme) == s && SetUser(s, s.user) == s && SetLoading(s, s.isLoading) == s
  {
  }

  /** Two states persist identically exactly when they differ at most in
      `isLoading`. */
  lemma PersistedIgnoresLoading(a: AppState, b: AppState)
    ensures Partialize(a) == Partialize(b) <==> a == b.(isLoading := a.isLoading)
  {
  }

  /** A state is recovered from its persisted slice and its loading flag. */
  lemma PartializeRoundTrip(s: AppState)
    ensures AppState(Partialize(s).user, s.isLoading, Partialize(s).theme) == s
  {
  }

  /** The four actions the store exposes. */
  datatype Action = SetUserAction(u: Option<User>) | SetLoadingAction(loading: bool) | SetThemeAction(t: Theme)
                  | ToggleThemeAction

  function Apply(s: AppState, a: Action): AppState
  {
    match a
    case SetUserAction(u) => SetUser(s, u)
    case SetLoadingAction(loading) => SetLoading(s, loading)
    case SetThemeAction(t) => SetTheme(s, t)
    case ToggleThemeAction => ToggleTheme(s)
  }

  /** The state after dispatching `actions` in order. */
  function Replay(s: AppState, actions: seq<Action>): AppState
    decreases |actions|
  {
    if actions == [] then s else Replay(Apply(s, actions[0]), actions[1..])
  }

  /** The same actions seen by the persisted slice: loading changes are
      invisible there. */
  function ApplyPersisted(p: Persisted, a: Action): Persisted
  {
    match a
    case SetUserAction(u) => p.(user := u)
    case SetLoadingAction(_) => p
    case SetThemeAction(t) => p.(theme := t)
    case ToggleThemeAction => p.(theme := Opposite(p.theme))
  }

  function ReplayPersisted(p: Persisted, actions: seq<Action>): Persisted
    decreases |actions|
  {
    if actions == [] then p else ReplayPersisted(ApplyPersisted(p, actions[0]), actions[1..])
  }

  /** What gets saved after any sequence of actions is determined by what was
      saved before: persistence commutes with every transition, and the
      loading flag never influences it. */
  lemma {:induction false} PersistedCommutes(s: AppState, actions: seq<Action>)
    ensures Partialize(Replay(s, actions)) == ReplayPersisted(Partialize(s), actions)
    decreases |actions|
  {
    if actions != [] {
      assert Partialize(Apply(s, actions[0])) == ApplyPersisted(Partialize(s), actions[0]);
      PersistedCommutes(Apply(s, actions[0]), actions[1..]);
    }
  }

  /** Two states that differ only in `isLoading` persist identically after
      any common sequence of actions. */
  lemma LoadingNeverPersists(a: AppState, b: AppState, actions: seq<Action>)
    requires a.user == b.user && a.theme == b.theme
    ensures Partialize(Replay(a, actions)) == Partialize(Replay(b, actions))
  {
    PersistedCommutes(a, actions);
    PersistedCommutes(b, actions);
  }

  /** From the initial state, the persisted slice is no user and the light
      theme. */
  lemma InitialPersisted()
    ensures Partialize(Initial) == Persisted(None, Light)
    ensures !Initial.isLoading
  {
  }
}
