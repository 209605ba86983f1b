/** The session store: at most one logged-in user, replaced by `login`,
    cleared by `logout`, and queried by `hasRole`. */
module Auth {
  import opened Wrappers
  import opened Types

  /** `Array.prototype.includes`: a left-to-right scan for `x`. */
  function Includes<T(==)>(xs: seq<T>, x: T): (r: bool)
    ensures r <==> x in xs
  {
    if |xs| == 0 then false
    else if xs[0] == x then true
    else Includes(xs[1..], x)
  }

  /** The answer `hasRole(...roles)` gives for a session: false without a
      user, otherwise whether the role list includes the user's role. */
  function UserHasRole(user: Option<User>, roles: seq<Role>): (r: bool)
    ensures user.None? ==> !r
    ensures user.Some? ==> (r <==> user.value.role in roles)
  {
    user.Some? && Includes(roles, user.value.role)
  }

  /** An empty role list admits nobody, logged in or not. */
  lemma EmptyRoleListDeniesEveryone(user: Option<User>)
    ensures !UserHasRole(user, [])
  {
  }

  class AuthStore {
    var user: Option<User>

    /** Initially nobody is logged in. */
    constructor()
      ensures user == None
    {
      user := None;
    }

    /** Replaces the session user unconditionally; no credential is checked. */
    method Login(u: User)
      modifies this
      ensures user == Some(u)
    {
      user := Some(u);
    }

    /** Clears the session; a second logout leaves it cleared. */
    method Logout()
      modifies this
      ensures user == None
    {
      user := None;
    }

    /** A read-only query: it cannot change the stored user. */
    function HasRole(roles: seq<Role>): (r: bool)
      reads this
      ensures r <==> user.Some? && user.value.role in roles
    {
      UserHasRole(user, roles)
    }
  }

  /** A whole session for one user: right after login the user holds their
      own role; after the following logout no role is held. */
  method RoleAcrossSession(store: AuthStore, u: User) returns (afterLogin: bool, afterLogout: bool)
    modifies store
    ensures afterLogin && !afterLogout
    ensures store.user == None
  {
    store.Login(u);
    afterLogin := store.HasRole([u.role]);
    store.Logout();
    afterLogout := store.HasRole([u.role]);
  }
}
