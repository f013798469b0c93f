// The zustand auth store (src/store/authStore.ts): two fields, set by login and
// cleared by logout.

module AuthStore {
  import opened Types

  /** The store's two actions; login's only parameter is the token. */
  datatype AuthAction = Login(token: string) | Logout

  /** The store's state. The declared AuthState type also lists `user`, which the store never sets. */
  class AuthState {
    var isAuthenticated: bool
    var token: Option<string>
    /** Every action applied since the store was created, oldest first. */
    ghost var actions: seq<AuthAction>

    /** The state is decided by the last action alone. */
    ghost predicate Valid()
      reads this
    {
      if actions != [] && actions[|actions| - 1].Login? then
        isAuthenticated && token == Some(actions[|actions| - 1].token)
      else
        !isAuthenticated && token == None
    }

    constructor ()
      ensures Valid() && actions == []
      ensures !isAuthenticated && token == None
    {
      isAuthenticated := false;
      token := None;
      actions := [];
    }

    /** login(token): authenticated, holding the token. */
    method Login(t: string)
      requires Valid()
      modifies this
      ensures Valid() && actions == old(actions) + [AuthAction.Login(t)]
      ensures isAuthenticated && token == Some(t)
    {
      isAuthenticated := true;
      token := Some(t);
      actions := actions + [AuthAction.Login(t)];
    }

    /** logout(): back to the initial values, whatever the state was. */
    method Logout()
      requires Valid()
      modifies this
      ensures Valid() && actions == old(actions) + [AuthAction.Logout]
      ensures !isAuthenticated && token == None
    {
      isAuthenticated := false;
      token := None;
      actions := actions + [AuthAction.Logout];
    }
  }

  /**
   * Login then logout leaves the fields a new store starts with, and a second
   * logout leaves them as they are.
   */
  method LoginLogoutRoundTrip(t: string) returns (once: (bool, Option<string>), twice: (bool, Option<string>))
    ensures once == (false, None)
    ensures twice == once
  {
    var initial := new AuthState();
    var s := new AuthState();
    s.Login(t);
    s.Logout();
    once := (s.isAuthenticated, s.token);
    assert once == (initial.isAuthenticated, initial.token);
    s.Logout();
    twice := (s.isAuthenticated, s.token);
  }
}
