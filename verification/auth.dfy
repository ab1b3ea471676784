/** The session-user store: who is logged in, and whether anyone is. */
module Auth {
  import opened Wrappers

  /** The logged-in user's record; no field is validated. */
  datatype User = User(id: int, name: string, email: string, role: string)

  /**
   * Two state cells, `user` and `isAuthenticated`, overwritten by SetUser and
   * ClearUser. Valid() is the coupling between them.
   */
  class AuthStore {
    var user: Option<User>
    var isAuthenticated: bool

    /** Someone is authenticated exactly when a user is stored. */
    ghost predicate Valid()
      reads this
    {
      isAuthenticated == user.Some?
    }

    /** The store starts with no user and not authenticated. */
    constructor ()
      ensures user == None && !isAuthenticated
      ensures Valid()
    {
      user := None;
      isAuthenticated := false;
    }

    /**
     * Stores `userData` as it is; the flag becomes the truthiness of the
     * value, which for a user record (an object) means "not null".
     */
    method SetUser(userData: Option<User>)
      modifies this
      ensures user == userData
      ensures isAuthenticated <==> userData.Some?
      ensures Valid()
    {
      user := userData;
      isAuthenticated := userData.Some?;
    }

    /** Logs out: the same final state as SetUser(None), from any state. */
    method ClearUser()
      modifies this
      ensures user == None && !isAuthenticated
      ensures Valid()
    {
      user := None;
      isAuthenticated := false;
    }
  }

  /** Logging out one store and setting no user on another leave the two alike. */
  method ClearMatchesSetNull(a: AuthStore, b: AuthStore)
    modifies a, b
    ensures a.user == b.user && a.isAuthenticated == b.isAuthenticated
  {
    a.ClearUser();
    b.SetUser(None);
  }
}
