/**
 * The client's authentication state and its reducers. `isAuthenticated` is
 * only ever true while a user is held, which every reducer preserves.
 */
module AuthSlice {
  import opened Common
  import opened Users

  /** What a signup or signin response carries, and what local storage keeps:
      the signin response adds the user's id and role. */
  datatype AuthUser = AuthUser(message: string, userId: Option<ObjectId>, role: Option<Role>)

  class AuthState {
    var user: Option<AuthUser>
    var loading: bool
    var error: Option<string>
    var isAuthenticated: bool

    ghost predicate Valid()
      reads this
    {
      isAuthenticated ==> user.Some?
    }

    /** The initial state, read from the user kept in local storage. */
    constructor (stored: Option<AuthUser>)
      ensures Valid()
      ensures user == stored && isAuthenticated == stored.Some?
      ensures !loading && error == None
    {
      user := stored;
      loading := false;
      error := None;
      isAuthenticated := stored.Some?;
    }

    /** clearError */
    method ClearError()
      requires Valid()
      modifies this
      ensures Valid()
      ensures error == None
      ensures user == old(user) && loading == old(loading) && isAuthenticated == old(isAuthenticated)
    {
      error := None;
    }

    /** resetAuth */
    method ResetAuth()
      requires Valid()
      modifies this
      ensures Valid()
      ensures user == None && !isAuthenticated && error == None && loading == old(loading)
    {
      user := None;
      isAuthenticated := false;
      error := None;
    }

    /** signupUser.pending and signinUser.pending: the two thunks share this case. */
    method RequestPending()
      requires Valid()
      modifies this
      ensures Valid()
      ensures loading && error == None
      ensures user == old(user) && isAuthenticated == old(isAuthenticated)
    {
      loading := true;
      error := None;
    }

    /** signupUser.fulfilled and signinUser.fulfilled: the two thunks share this case. */
    method RequestFulfilled(payload: AuthUser)
      requires Valid()
      modifies this
      ensures Valid()
      ensures user == Some(payload) && isAuthenticated && !loading && error == None
    {
      loading := false;
      user := Some(payload);
      isAuthenticated := true;
      error := None;
    }

    /** signupUser.rejected and signinUser.rejected: the two thunks share this case. */
    method RequestRejected(payload: string)
      requires Valid()
      modifies this
      ensures Valid()
      ensures !isAuthenticated && !loading && error == Some(payload) && user == old(user)
    {
      loading := false;
      error := Some(payload);
      isAuthenticated := false;
    }

    /** signoutUser.fulfilled */
    method SignoutFulfilled()
      requires Valid()
      modifies this
      ensures Valid()
      ensures user == None && !isAuthenticated && error == None && loading == old(loading)
    {
      user := None;
      isAuthenticated := false;
      error := None;
    }

    /** checkAuthStatus.fulfilled */
    method CheckAuthStatusFulfilled(payload: AuthUser)
      requires Valid()
      modifies this
      ensures Valid()
      ensures user == Some(payload) && isAuthenticated && error == None && loading == old(loading)
    {
      user := Some(payload);
      isAuthenticated := true;
      error := None;
    }

    /** checkAuthStatus.rejected */
    method CheckAuthStatusRejected()
      requires Valid()
      modifies this
      ensures Valid()
      ensures user == None && !isAuthenticated && error == old(error) && loading == old(loading)
    {
      user := None;
      isAuthenticated := false;
    }
  }
}
