/**
 * The session store (src/contexts/AuthContext.tsx): who is signed in, kept in
 * memory as `user`, with the bearer token and a copy of the user record in the
 * `authToken` and `user` keys of local storage.
 *
 * Every backend exchange is an outcome parameter.
 */
module Session {
  import opened Lists
  import opened Api

  /** The identity record `/auth/me` returns. */
  datatype User = User(id: int, email: string, name: Option<string>, createdAt: Option<int>)

  /** A stored token counts only when it is a non-empty string (`if (token)`). */
  predicate HasToken(token: Option<string>) {
    token.Some? && token.value != ""
  }

  class SessionStore {
    var user: Option<User>
    /** Local-storage key `authToken`. */
    var authToken: Option<string>
    /** Local-storage key `user`, the cached identity record. */
    var cachedUser: Option<User>

    /** The provider mounts with no user, whatever storage holds. */
    constructor (storedToken: Option<string>, storedUser: Option<User>)
      ensures user == None && authToken == storedToken && cachedUser == storedUser
    {
      user := None;
      authToken := storedToken;
      cachedUser := storedUser;
    }

    /** `isAuthenticated` is `!!user`. */
    function IsAuthenticated(): (r: bool)
      reads this
      ensures r <==> user != None
    {
      user.Some?
    }

    /**
     * The startup effect. Without a usable stored token nothing happens;
     * otherwise `/auth/me` is asked with it: its answer becomes `user` and the
     * cached copy, and a failure removes both storage keys.
     */
    method Initialize(me: Response<User>)
      modifies this
      ensures !HasToken(old(authToken)) ==>
                user == old(user) && authToken == old(authToken) && cachedUser == old(cachedUser)
      ensures HasToken(old(authToken)) && me.Ok? ==>
                user == Some(me.payload) && cachedUser == Some(me.payload) && authToken == old(authToken)
      ensures HasToken(old(authToken)) && me.Failed? ==>
                user == old(user) && authToken == None && cachedUser == None
    {
      if HasToken(authToken) {
        match me {
          case Ok(u) =>
            user := Some(u);
            cachedUser := Some(u);
          case Failed =>
            authToken := None;
            cachedUser := None;
        }
      }
    }

    /**
     * Shared by `login` and `signup` after their first call: a failed first call
     * writes nothing; a successful one stores the token before `/auth/me` is
     * asked, so the token stays even when that second call fails.
     */
    method Authenticate(first: Response<string>, me: Response<User>) returns (ok: bool)
      modifies this
      ensures ok <==> first.Ok? && me.Ok?
      ensures first.Failed? ==>
                user == old(user) && authToken == old(authToken) && cachedUser == old(cachedUser)
      ensures first.Ok? ==> authToken == Some(first.payload)
      ensures ok ==> user == Some(me.payload) && cachedUser == Some(me.payload)
      ensures first.Ok? && me.Failed? ==> user == old(user) && cachedUser == old(cachedUser)
    {
      ok := false;
      if first.Ok? {
        authToken := Some(first.payload);
        if me.Ok? {
          user := Some(me.payload);
          cachedUser := Some(me.payload);
          ok := true;
        }
      }
    }

    /** `login(email, password)`: `/auth/login`'s answer carries the token. */
    method Login(loginCall: Response<string>, me: Response<User>) returns (ok: bool)
      modifies this
      ensures ok <==> loginCall.Ok? && me.Ok?
      ensures loginCall.Failed? ==>
                user == old(user) && authToken == old(authToken) && cachedUser == old(cachedUser)
      ensures loginCall.Ok? ==> authToken == Some(loginCall.payload)
      ensures ok ==> user == Some(me.payload) && cachedUser == Some(me.payload)
      ensures loginCall.Ok? && me.Failed? ==> user == old(user) && cachedUser == old(cachedUser)
    {
      ok := Authenticate(loginCall, me);
    }

    /** `signup(name, email, password)`: `/auth/signup`'s answer carries the token. */
    method Signup(signupCall: Response<string>, me: Response<User>) returns (ok: bool)
      modifies this
      ensures ok <==> signupCall.Ok? && me.Ok?
      ensures signupCall.Failed? ==>
                user == old(user) && authToken == old(authToken) && cachedUser == old(cachedUser)
      ensures signupCall.Ok? ==> authToken == Some(signupCall.payload)
      ensures ok ==> user == Some(me.payload) && cachedUser == Some(me.payload)
      ensures signupCall.Ok? && me.Failed? ==> user == old(user) && cachedUser == old(cachedUser)
    {
      ok := Authenticate(signupCall, me);
    }

    /** `logout()`: forget the user and remove both storage keys; no backend call. */
    method Logout()
      modifies this
      ensures user == None && authToken == None && cachedUser == None
      ensures !IsAuthenticated()
    {
      user := None;
      authToken := None;
      cachedUser := None;
    }
  }

  /**
   * A successful login survives a reload: a fresh store built from what the
   * login left in storage, asking `/auth/me` with that token and getting the same
   * identity, signs the same user in. The token must be non-empty, because
   * startup ignores an empty one.
   */
  method LoginSurvivesReload(token: string, u: User) returns (ok: bool, restored: Option<User>)
    requires token != ""
    ensures ok && restored == Some(u)
  {
    var before := new SessionStore(None, None);
    ok := before.Login(Ok(token), Ok(u));
    var after := new SessionStore(before.authToken, before.cachedUser);
    after.Initialize(Ok(u));
    restored := after.user;
  }

  /** With an empty token the same login succeeds but the reload signs nobody in. */
  method EmptyTokenLostOnReload(u: User) returns (ok: bool, restored: Option<User>)
    ensures ok && restored == None
  {
    var before := new SessionStore(None, None);
    ok := before.Login(Ok(""), Ok(u));
    var after := new SessionStore(before.authToken, before.cachedUser);
    after.Initialize(Ok(u));
    restored := after.user;
  }
}
