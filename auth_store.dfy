/** The client-side session state (frontend/src/store/authStore.js): each
    action publishes a loading state, then the outcome of its request. */
module AuthStore {
  import opened Base
  import opened UserModel

  /** What `set` publishes: one snapshot of the store's state. */
  datatype Snapshot = Snapshot(user: Option<PublicUser>, isAuthenticated: bool, isLoading: bool,
                               error: Option<string>)

  const LOGIN_FAILED := "Login failed. Please check your credentials."
  const SIGNUP_FAILED := "Signup failed."
  const LOGOUT_FAILED := "Logout failed, but you have been logged out on this device."
  const VERIFICATION_FAILED := "Verification failed."

  class AuthStore {
    var user: Option<PublicUser>
    var isAuthenticated: bool
    var isLoading: bool
    var error: Option<string>
    /** Every state published by `set`, oldest first. */
    ghost var published: seq<Snapshot>

    function State(): Snapshot
      reads this
    {
      Snapshot(user, isAuthenticated, isLoading, error)
    }

    constructor ()
      ensures user == None && !isAuthenticated && !isLoading && error == None && published == []
    {
      user := None;
      isAuthenticated := false;
      isLoading := false;
      error := None;
      published := [];
    }

    /** The pattern `login`, `signup` and `verifyEmail` share: publish
        loading with no error; on success take `response.data.user` and
        become authenticated; on failure keep the user and report the
        server's message or `fallback`. */
    method Authenticate(outcome: Outcome<Option<PublicUser>>, fallback: string)
      modifies this
      ensures published == old(published) + [Snapshot(old(user), old(isAuthenticated), true, None), State()]
      ensures !isLoading
      ensures outcome.Ok? ==> user == outcome.data && isAuthenticated && error == None
      ensures outcome.Failed? ==> user == old(user) && isAuthenticated == old(isAuthenticated) &&
                                  error == Some(OrElse(outcome.serverMessage, fallback))
    {
      isLoading, error := true, None;
      published := published + [State()];
      if outcome.Ok? {
        user, isAuthenticated, isLoading := outcome.data, true, false;
      } else {
        error, isLoading := Some(OrElse(outcome.serverMessage, fallback)), false;
      }
      published := published + [State()];
    }

    /** `login(email, password)`. */
    method Login(outcome: Outcome<Option<PublicUser>>)
      modifies this
      ensures published == old(published) + [Snapshot(old(user), old(isAuthenticated), true, None), State()]
      ensures !isLoading
      ensures outcome.Ok? ==> user == outcome.data && isAuthenticated && error == None
      ensures outcome.Failed? ==> user == old(user) && isAuthenticated == old(isAuthenticated) &&
                                  error == Some(OrElse(outcome.serverMessage, LOGIN_FAILED))
    {
      Authenticate(outcome, LOGIN_FAILED);
    }

    /** `signup(name, email, password)`. */
    method Signup(outcome: Outcome<Option<PublicUser>>)
      modifies this
      ensures published == old(published) + [Snapshot(old(user), old(isAuthenticated), true, None), State()]
      ensures !isLoading
      ensures outcome.Ok? ==> user == outcome.data && isAuthenticated && error == None
      ensures outcome.Failed? ==> user == old(user) && isAuthenticated == old(isAuthenticated) &&
                                  error == Some(OrElse(outcome.serverMessage, SIGNUP_FAILED))
    {
      Authenticate(outcome, SIGNUP_FAILED);
    }

    /** `verifyEmail(code)`: answers whether the request succeeded. */
    method VerifyEmail(outcome: Outcome<Option<PublicUser>>) returns (ok: bool)
      modifies this
      ensures ok <==> outcome.Ok?
      ensures published == old(published) + [Snapshot(old(user), old(isAuthenticated), true, None), State()]
      ensures !isLoading
      ensures ok ==> user == outcome.data && isAuthenticated && error == None
      ensures !ok ==> user == old(user) && isAuthenticated == old(isAuthenticated) &&
                      error == Some(OrElse(outcome.serverMessage, VERIFICATION_FAILED))
    {
      Authenticate(outcome, VERIFICATION_FAILED);
      ok := outcome.Ok?;
    }

    /** `logout()`: the session ends on this device whatever the server
        answers; only `error` tells the outcomes apart. The loading state
        keeps the previous error. */
    method Logout(outcome: Outcome<()>)
      modifies this
      ensures published == old(published) + [Snapshot(old(user), old(isAuthenticated), true, old(error)), State()]
      ensures user == None && !isAuthenticated && !isLoading
      ensures error == if outcome.Ok? then None else Some(LOGOUT_FAILED)
    {
      isLoading := true;
      published := published + [State()];
      user, isAuthenticated, isLoading := None, false, false;
      error := if outcome.Ok? then None else Some(LOGOUT_FAILED);
      published := published + [State()];
    }

    /** `checkAuth()`: never touches `isLoading` or `error`. */
    method CheckAuth(outcome: Outcome<Option<PublicUser>>)
      modifies this
      ensures published == old(published) + [State()]
      ensures isLoading == old(isLoading) && error == old(error)
      ensures outcome.Ok? ==> user == outcome.data && isAuthenticated
      ensures outcome.Failed? ==> user == None && !isAuthenticated
    {
      if outcome.Ok? {
        user, isAuthenticated := outcome.data, true;
      } else {
        user, isAuthenticated := None, false;
      }
      published := published + [State()];
    }
  }
}
