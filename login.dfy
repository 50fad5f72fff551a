/** The login page (src/pages/Login.js): the credential form, the submit
    guard, the post-login redirect and the error clearing. */
module LoginPage {
  import opened Wrappers
  import opened Effects
  import Auth
  import Store
  import ProtectedRoute

  /** Both fields are non-empty. */
  predicate CanSubmit(username: string, password: string) {
    username != "" && password != ""
  }

  /** The login button is disabled while loading or with an empty field. */
  predicate LoginDisabled(isLoading: bool, username: string, password: string) {
    isLoading || username == "" || password == ""
  }

  /** An enabled button always submits. */
  lemma EnabledButtonSubmits(isLoading: bool, username: string, password: string)
    requires !LoginDisabled(isLoading, username, password)
    ensures CanSubmit(username, password)
  {
  }

  /** `handleLogin`: nothing with an empty field, else `loginUser` with
      both fields. */
  function Submit(username: string, password: string): (request: Option<Effect>)
    ensures request.Some? <==> CanSubmit(username, password)
    ensures request.Some? ==> request.value == Login(username, password)
  {
    if CanSubmit(username, password) then Some(Login(username, password)) else None
  }

  /** Where a fulfilled login navigates: the path the route guard came
      from, or "/pos" when there is none or it is empty. */
  function RedirectTarget(from: Option<ProtectedRoute.Location>): (path: string)
    ensures path != ""
    ensures from.Some? && from.value.pathname != "" ==> path == from.value.pathname
    ensures from.None? || from.value.pathname == "" ==> path == "/pos"
  {
    OrElse(if from.Some? then from.value.pathname else "", "/pos")
  }

  /** The navigation after `handleLogin`: none unless the login fulfilled. */
  function AfterLogin(username: string, password: string, fulfilled: bool, from: Option<ProtectedRoute.Location>): (target: Option<string>)
    ensures target.Some? <==> CanSubmit(username, password) && fulfilled
    ensures target.Some? ==> target.value == RedirectTarget(from)
  {
    if CanSubmit(username, password) && fulfilled then Some(RedirectTarget(from)) else None
  }

  /** A visitor the route guard turned away from a protected page comes
      back to that page after logging in. */
  lemma LoginReturnsToGuardedPage(location: ProtectedRoute.Location, username: string, password: string)
    requires location.pathname != "" && CanSubmit(username, password)
    ensures var outcome := ProtectedRoute.Decide(false, true, false, location);
            outcome.RedirectToLogin? &&
            AfterLogin(username, password, true, Some(outcome.from)) == Some(location.pathname)
  {
  }

  /** Editing a field clears the store's error only when one is shown. */
  function EditEffects(errorMessage: Option<string>): (dispatched: seq<Auth.Action>)
    ensures Truthy(errorMessage) ==> dispatched == [Auth.ClearError]
    ensures !Truthy(errorMessage) ==> dispatched == []
  {
    if Truthy(errorMessage) then [Auth.ClearError] else []
  }

  /** After an edit no error is shown, and nothing else in the session
      store changes. */
  lemma EditHidesError(s: Auth.AuthState)
    ensures var r := Auth.ReduceAll(s, EditEffects(s.error));
            !Truthy(r.error) && r == s.(error := r.error)
  {
    if Truthy(s.error) {
      assert [Auth.ClearError][1..] == [];
    }
  }

  /** The page clears the store's error when it mounts. */
  const MountEffects: seq<Auth.Action> := [Auth.ClearError]

  /** Whatever error an earlier visit left in the store, the freshly
      mounted page shows none; the session itself is untouched. */
  lemma MountHidesError(s: Auth.AuthState)
    ensures var r := Auth.ReduceAll(s, MountEffects);
            r.error.None? && r == s.(error := None)
  {
    Store.ReplayOne(Auth.Reduce, s, Auth.ClearError);
  }

  /** The form's fields, set through their setters. */
  class LoginForm {
    var username: string
    var password: string

    constructor ()
      ensures username == "" && password == ""
    {
      username, password := "", "";
    }

    method EditUsername(value: string, errorMessage: Option<string>) returns (dispatched: seq<Auth.Action>)
      modifies this
      ensures username == value && password == old(password)
      ensures dispatched == EditEffects(errorMessage)
    {
      username := value;
      dispatched := EditEffects(errorMessage);
    }

    method EditPassword(value: string, errorMessage: Option<string>) returns (dispatched: seq<Auth.Action>)
      modifies this
      ensures password == value && username == old(username)
      ensures dispatched == EditEffects(errorMessage)
    {
      password := value;
      dispatched := EditEffects(errorMessage);
    }
  }
}
