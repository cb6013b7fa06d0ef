/**
 * The React context of lib/auth-context.tsx: the `user`, `isAuthenticated`
 * and `isLoading` state kept beside the shared session store, with
 * `isAuthenticated` always equal to "a user is present".
 */
module AuthContext {
  import opened Wrappers
  import opened Auth

  class AuthProvider {
    /** The module-level session store the context reads and updates. */
    const service: AuthService
    var user: Option<User>
    var isAuthenticated: bool
    var isLoading: bool

    /** The context's invariant. */
    ghost predicate Valid()
      reads this
    {
      isAuthenticated == user.Some?
    }

    /** The initial state: no user, not authenticated, loading. */
    constructor (service: AuthService)
      ensures this.service == service
      ensures user.None? && !isAuthenticated && isLoading
      ensures Valid()
    {
      this.service := service;
      user := None;
      isAuthenticated := false;
      isLoading := true;
    }

    /**
     * `checkAuth`: with a valid token the user is taken from the store,
     * otherwise (and then the store is cleared) there is none; loading ends.
     */
    method CheckAuth(decode: string -> Payload, nowMs: int)
      modifies this, service
      ensures old(service.IsTokenExpired(decode, nowMs)) ==>
                && user.None? && !isAuthenticated
                && service.token.None? && service.user.None?
                && service.storage == old(service.storage) - {TokenKey, UserKey}
      ensures !old(service.IsTokenExpired(decode, nowMs)) ==>
                && user == old(service.user) && isAuthenticated == user.Some?
                && service.token == old(service.token) && service.user == old(service.user)
                && service.storage == old(service.storage)
      ensures !isLoading
      ensures Valid()
    {
      isLoading := true;
      var valid := service.CheckTokenValidity(decode, nowMs);
      if valid {
        var currentUser := service.user;
        user := currentUser;
        isAuthenticated := currentUser.Some?;
      } else {
        user := None;
        isAuthenticated := false;
      }
      isLoading := false;
    }

    /**
     * The common body of `login` and `signup`: true exactly when the store's
     * reply had `success`, and then the user is re-read from the store (which
     * keeps its previous user when the reply had no `data`); on false the
     * context and the store are left as they were.
     */
    method Adopt(result: AuthResponse) returns (ok: bool)
      modifies this
      ensures ok == result.success
      ensures ok ==> user == service.user && isAuthenticated == user.Some?
      ensures !ok ==> user == old(user) && isAuthenticated == old(isAuthenticated)
      ensures isLoading == old(isLoading)
      ensures old(Valid()) ==> Valid()
    {
      if result.success {
        var currentUser := service.user;
        user := currentUser;
        isAuthenticated := currentUser.Some?;
        ok := true;
      } else {
        ok := false;
      }
    }

    /** `login`, with the reply the store receives given. */
    method Login(reply: Reply) returns (ok: bool)
      modifies this, service
      ensures ok <==> reply.Body? && reply.response.success
      ensures ok ==> user == service.user && isAuthenticated == user.Some?
      ensures ok && Accepts(reply.response) ==> user == Some(reply.response.data.value.user)
      ensures ok && reply.response.data.None? ==> user == old(service.user)
      ensures !ok ==> user == old(user) && isAuthenticated == old(isAuthenticated)
      ensures reply.Body? && Accepts(reply.response) ==>
                && service.token == Some(reply.response.data.value.token)
                && service.user == Some(reply.response.data.value.user)
                && service.storage == old(service.storage)[TokenKey := reply.response.data.value.token]
                                                          [UserKey := UserJson(reply.response.data.value.user)]
      ensures !(reply.Body? && Accepts(reply.response)) ==>
                && service.token == old(service.token) && service.user == old(service.user)
                && service.storage == old(service.storage)
      ensures isLoading == old(isLoading)
      ensures old(Valid()) ==> Valid()
    {
      var result := service.Login(reply);
      ok := Adopt(result);
    }

    /** `signup`, with the reply the store receives given; the same contract as `login`. */
    method Signup(reply: Reply) returns (ok: bool)
      modifies this, service
      ensures ok <==> reply.Body? && reply.response.success
      ensures ok ==> user == service.user && isAuthenticated == user.Some?
      ensures ok && Accepts(reply.response) ==> user == Some(reply.response.data.value.user)
      ensures ok && reply.response.data.None? ==> user == old(service.user)
      ensures !ok ==> user == old(user) && isAuthenticated == old(isAuthenticated)
      ensures reply.Body? && Accepts(reply.response) ==>
                && service.token == Some(reply.response.data.value.token)
                && service.user == Some(reply.response.data.value.user)
                && service.storage == old(service.storage)[TokenKey := reply.response.data.value.token]
                                                          [UserKey := UserJson(reply.response.data.value.user)]
      ensures !(reply.Body? && Accepts(reply.response)) ==>
                && service.token == old(service.token) && service.user == old(service.user)
                && service.storage == old(service.storage)
      ensures isLoading == old(isLoading)
      ensures old(Valid()) ==> Valid()
    {
      var result := service.Signup(reply);
      ok := Adopt(result);
    }

    /** `logout`: clears the store and the context's user. */
    method Logout()
      modifies this, service
      ensures service.token.None? && service.user.None?
      ensures service.storage == old(service.storage) - {TokenKey, UserKey}
      ensures user.None? && !isAuthenticated
      ensures isLoading == old(isLoading)
      ensures Valid()
    {
      service.Logout();
      user := None;
      isAuthenticated := false;
    }

    /** `getAuthHeader`, answered by the store. */
    function GetAuthHeader(): (h: Header)
      reads this, service
      ensures h.Authorization? <==> service.token.Some? && service.token.value != ""
      ensures HeaderToken(h) == (if Present(service.token) then service.token else None)
    {
      service.HeaderRoundTrip();
      service.GetAuthHeader()
    }
  }
}
