/**
 The authentication context: who is signed in, whether the session is
 believed valid, and whether the start-up check is still running. Its
 tokens live in the shared browser storage.
 */
module AuthContext {
  import opened Wrappers
  import opened Api
  import opened Storage

  class AuthProvider {
    const storage: LocalStorage
    var user: Option<Profile>
    var loading: bool
    var isAuthenticated: bool
    /** The requests this provider has issued, oldest first. */
    ghost var requests: seq<Request>

    /** The provider as first rendered: no user, loading, not authenticated. */
    constructor (store: LocalStorage)
      ensures storage == store
      ensures user == None && loading && !isAuthenticated && requests == []
    {
      storage := store;
      user := None;
      loading := true;
      isAuthenticated := false;
      requests := [];
    }

    /** `{!loading && children}`: the subtree appears only once loading is over. */
    predicate RendersChildren()
      reads this
    {
      !loading
    }

    /** `login(accessToken, refreshToken)`: store both tokens; the user is left as it was. */
    method Login(accessToken: string, refreshToken: string)
      modifies this, storage
      ensures storage.items == WithTokens(old(storage.items), accessToken, refreshToken)
      ensures isAuthenticated
      ensures user == old(user) && loading == old(loading) && requests == old(requests)
    {
      storage.SetItem(ACCESS_TOKEN, accessToken);
      storage.SetItem(REFRESH_TOKEN, refreshToken);
      isAuthenticated := true;
    }

    /** `logout()`: remove the two token keys only, forget the user. */
    method Logout()
      modifies this, storage
      ensures storage.items == WithoutTokens(old(storage.items))
      ensures user == None && !isAuthenticated
      ensures loading == old(loading) && requests == old(requests)
    {
      storage.RemoveItem(ACCESS_TOKEN);
      storage.RemoveItem(REFRESH_TOKEN);
      assert storage.items == old(storage.items) - {ACCESS_TOKEN} - {REFRESH_TOKEN};
      user := None;
      isAuthenticated := false;
    }

    /**
     `checkAuth`, run once on mount. With a token, the profile is fetched
     (`fetched` is its outcome): success keeps the session and records the
     user, failure logs out. Loading ends on every path.
     */
    method CheckAuth(fetched: Result<Profile>)
      modifies this, storage
      ensures !loading
      ensures !HasAccessToken(old(storage.items)) ==>
        && storage.items == old(storage.items)
        && user == old(user) && isAuthenticated == old(isAuthenticated)
        && requests == old(requests)
      ensures HasAccessToken(old(storage.items)) ==> requests == old(requests) + [Get("/profile/")]
      ensures HasAccessToken(old(storage.items)) && fetched.Ok? ==>
        && storage.items == old(storage.items)
        && isAuthenticated && user == Some(fetched.value)
      ensures HasAccessToken(old(storage.items)) && fetched.Err? ==>
        && storage.items == WithoutTokens(old(storage.items))
        && !isAuthenticated && user == None
    {
      if HasAccessToken(storage.items) {
        isAuthenticated := true;
        requests := requests + [Get("/profile/")];
        match fetched {
          case Ok(profile) =>
            user := Some(profile);
          case Err(_) =>
            Logout();
        }
      }
      loading := false;
    }
  }

  /**
   Mounting the provider over storage `items` and letting the start-up check
   finish with outcome `fetched`: what the context then holds, what storage
   holds, and whether the children render.
   */
  method Mount(items: map<string, string>, fetched: Result<Profile>)
    returns (authenticated: bool, user: Option<Profile>, after: map<string, string>, rendered: bool)
    ensures rendered
    ensures !HasAccessToken(items) ==> !authenticated && user == None && after == items
    ensures HasAccessToken(items) && fetched.Ok? ==>
      authenticated && user == Some(fetched.value) && after == items
    ensures HasAccessToken(items) && fetched.Err? ==>
      !authenticated && user == None && after == WithoutTokens(items)
  {
    var store := new LocalStorage(items);
    var ctx := new AuthProvider(store);
    ctx.CheckAuth(fetched);
    authenticated, user, after, rendered := ctx.isAuthenticated, ctx.user, store.items, ctx.RendersChildren();
  }

  /**
   `login(a, r)` then `logout()` on storage `items`: neither token remains,
   every other key is as before, and the context is signed out.
   */
  method LoginThenLogout(items: map<string, string>, access: string, refresh: string)
    returns (afterLogin: map<string, string>, afterLogout: map<string, string>, authenticated: bool)
    ensures ACCESS_TOKEN in afterLogin && afterLogin[ACCESS_TOKEN] == access
    ensures REFRESH_TOKEN in afterLogin && afterLogin[REFRESH_TOKEN] == refresh
    ensures ACCESS_TOKEN !in afterLogout && REFRESH_TOKEN !in afterLogout
    ensures afterLogout == WithoutTokens(items)
    ensures !authenticated
  {
    var store := new LocalStorage(items);
    var ctx := new AuthProvider(store);
    ctx.Login(access, refresh);
    afterLogin := store.items;
    ctx.Logout();
    afterLogout := store.items;
    WithoutTokensUndoesWithTokens(items, access, refresh);
    authenticated := ctx.isAuthenticated;
  }

  /** Logging out twice leaves the same storage and context as logging out once. */
  method LogoutTwice(items: map<string, string>, access: string, refresh: string)
    returns (once: map<string, string>, twice: map<string, string>, authenticated: bool, user: Option<Profile>)
    ensures once == twice
    ensures !authenticated && user == None
  {
    var store := new LocalStorage(items);
    var ctx := new AuthProvider(store);
    ctx.Login(access, refresh);
    ctx.Logout();
    once := store.items;
    ctx.Logout();
    twice := store.items;
    WithoutTokensIdempotent(once);
    authenticated, user := ctx.isAuthenticated, ctx.user;
  }
}
