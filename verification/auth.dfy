/**
 * The client-side session store of lib/auth.ts: a (token, user) pair held in
 * memory and mirrored in the browser's local storage under the keys
 * `auth_token` and `auth_user`.
 */
module Auth {
  import opened Wrappers

  datatype User = User(id: string, email: string, name: string)

  /** The `data` part of a successful reply: the issued JWT and its user. */
  datatype Session = Session(token: string, user: User)

  /** The JSON body the auth endpoints answer with. */
  datatype AuthResponse = AuthResponse(
    success: bool,
    message: Option<string>,
    data: Option<Session>,
    error: Option<string>)

  /** What `fetch` followed by `response.json()` delivered: a body, or an exception. */
  datatype Reply = Body(response: AuthResponse) | Thrown

  /**
   * What splitting a JWT, base64-decoding its middle segment and parsing it
   * as JSON yields: an exception, or the claims object with its `exp` member
   * (a NumericDate in seconds, section 4.1.4 of RFC 7519), which may be absent.
   */
  datatype Payload = Undecodable | Claims(exp: Option<int>)

  /** What `JSON.parse` made of the stored `auth_user` text (`"null"` parses to no user). */
  datatype UserParse = ParseError | Parsed(user: Option<User>)

  /** The `{ authorization: ... }` object, or the empty object `{}`. */
  datatype Header = NoHeader | Authorization(value: string)

  const TokenKey := "auth_token"
  const UserKey := "auth_user"
  const BearerPrefix := "Bearer "
  const SignupNetworkError := "Network error during signup. Please try again."
  const LoginNetworkError := "Network error during login. Please try again."

  /** JavaScript truthiness of a nullable string: `null` and `""` are both falsy. */
  predicate Present(s: Option<string>) {
    s.Some? && s.value != ""
  }

  /** `JSON.stringify(user)` (string escaping is not modelled). */
  function UserJson(u: User): string {
    "{\"id\":\"" + u.id + "\",\"email\":\"" + u.email + "\",\"name\":\"" + u.name + "\"}"
  }

  /** A reply that carries a session replaces the stored one: `result.success && result.data`. */
  predicate Accepts(r: AuthResponse) {
    r.success && r.data.Some?
  }

  /**
   * `payload.exp < Date.now() / 1000`, with the clock read in whole
   * milliseconds; the comparison is done exactly in integers.
   */
  function ExpiredAt(exp: int, nowMs: int): (r: bool)
    ensures r <==> (exp as real) < (nowMs as real) / 1000.0
  {
    var now := (nowMs as real) / 1000.0;
    assert now * 1000.0 == nowMs as real;
    exp * 1000 < nowMs
  }

  /** The expiry verdict for a decoded payload; an absent `exp` compares false. */
  function PayloadExpired(p: Payload, nowMs: int): (r: bool)
    ensures p.Undecodable? ==> r
    ensures p.Claims? && p.exp.None? ==> !r
    ensures p.Claims? && p.exp.Some? ==> (r <==> (p.exp.value as real) < (nowMs as real) / 1000.0)
  {
    match p
    case Undecodable => true
    case Claims(None) => false
    case Claims(Some(e)) => ExpiredAt(e, nowMs)
  }

  /** The token carried by an authorization header, the inverse of building it. */
  function HeaderToken(h: Header): (t: Option<string>)
    ensures h.NoHeader? ==> t.None?
  {
    match h
    case NoHeader => None
    case Authorization(v) =>
      if |v| >= |BearerPrefix| && v[..|BearerPrefix|] == BearerPrefix
      then Some(v[|BearerPrefix|..]) else None
  }

  class AuthService {
    var token: Option<string>
    var user: Option<User>
    /** The browser's local storage. */
    var storage: map<string, string>

    /**
     * The stored token is the in-memory one, and a user in memory always has
     * its storage key.
     */
    ghost predicate Valid()
      reads this
    {
      && Lookup(storage, TokenKey) == token
      && (user.Some? ==> UserKey in storage)
    }

    /**
     * Loading on start-up: the token is read from storage; a non-empty stored
     * user text is parsed, and a text that fails to parse clears the whole session.
     */
    constructor (stored: map<string, string>, parse: UserParse)
      ensures Valid()
      ensures UserKey in stored && stored[UserKey] != "" && parse.ParseError? ==>
                token.None? && user.None? && storage == stored - {TokenKey, UserKey}
      ensures !(UserKey in stored && stored[UserKey] != "" && parse.ParseError?) ==>
                && token == Lookup(stored, TokenKey)
                && storage == stored
                && user == (if UserKey in stored && stored[UserKey] != "" then parse.user else None)
    {
      token := Lookup(stored, TokenKey);
      user := None;
      storage := stored;
      new;
      if UserKey in stored && stored[UserKey] != "" {
        match parse
        case Parsed(u) => user := u;
        case ParseError => ClearAuth();
      }
    }

    /** `setAuth`: replace the pair and write both storage keys. */
    method SetAuth(t: string, u: User)
      modifies this
      ensures token == Some(t) && user == Some(u)
      ensures storage == old(storage)[TokenKey := t][UserKey := UserJson(u)]
      ensures Valid()
      ensures IsAuthenticated() <==> t != ""
      ensures HeaderToken(GetAuthHeader()) == (if t == "" then None else Some(t))
    {
      token := Some(t);
      user := Some(u);
      storage := storage[TokenKey := t][UserKey := UserJson(u)];
      HeaderRoundTrip();
    }

    /** `clearAuth`: forget the pair and remove both storage keys. */
    method ClearAuth()
      modifies this
      ensures token.None? && user.None?
      ensures storage == old(storage) - {TokenKey, UserKey}
      ensures Valid()
      ensures !IsAuthenticated() && GetAuthHeader() == NoHeader
    {
      token := None;
      user := None;
      storage := storage - {TokenKey, UserKey};
    }

    /** `logout` is `clearAuth`. */
    method Logout()
      modifies this
      ensures token.None? && user.None?
      ensures storage == old(storage) - {TokenKey, UserKey}
      ensures Valid()
    {
      ClearAuth();
    }

    /**
     * The common body of `login` and `signup`: a reply with a session replaces
     * the stored one; any other reply, and an exception, leave it untouched. An
     * exception is answered with `success: false` and the given fixed text.
     */
    method Receive(reply: Reply, networkError: string) returns (result: AuthResponse)
      modifies this
      ensures reply.Thrown? ==> result == AuthResponse(false, None, None, Some(networkError))
      ensures reply.Body? ==> result == reply.response
      ensures Accepts(result) ==>
                && token == Some(result.data.value.token)
                && user == Some(result.data.value.user)
                && storage == old(storage)[TokenKey := result.data.value.token]
                                          [UserKey := UserJson(result.data.value.user)]
      ensures !Accepts(result) ==> token == old(token) && user == old(user) && storage == old(storage)
      ensures old(Valid()) || Accepts(result) ==> Valid()
    {
      match reply
      case Thrown =>
        result := AuthResponse(false, None, None, Some(networkError));
      case Body(r) =>
        result := r;
        if r.success && r.data.Some? {
          SetAuth(r.data.value.token, r.data.value.user);
        }
    }

    /** `signup`, with the reply of POST /api/auth/signup given. */
    method Signup(reply: Reply) returns (result: AuthResponse)
      modifies this
      ensures reply.Thrown? ==> result == AuthResponse(false, None, None, Some(SignupNetworkError))
      ensures reply.Body? ==> result == reply.response
      ensures Accepts(result) ==>
                && token == Some(result.data.value.token)
                && user == Some(result.data.value.user)
                && storage == old(storage)[TokenKey := result.data.value.token]
                                          [UserKey := UserJson(result.data.value.user)]
      ensures !Accepts(result) ==> token == old(token) && user == old(user) && storage == old(storage)
      ensures old(Valid()) || Accepts(result) ==> Valid()
    {
      result := Receive(reply, SignupNetworkError);
    }

    /** `login`, with the reply of POST /api/auth/login given. */
    method Login(reply: Reply) returns (result: AuthResponse)
      modifies this
      ensures reply.Thrown? ==> result == AuthResponse(false, None, None, Some(LoginNetworkError))
      ensures reply.Body? ==> result == reply.response
      ensures Accepts(result) ==>
                && token == Some(result.data.value.token)
                && user == Some(result.data.value.user)
                && storage == old(storage)[TokenKey := result.data.value.token]
                                          [UserKey := UserJson(result.data.value.user)]
      ensures !Accepts(result) ==> token == old(token) && user == old(user) && storage == old(storage)
      ensures old(Valid()) || Accepts(result) ==> Valid()
    {
      result := Receive(reply, LoginNetworkError);
    }

    /** `isAuthenticated`: a non-empty token and a user. */
    function IsAuthenticated(): (r: bool)
      reads this
      ensures r <==> token.Some? && token.value != "" && user.Some?
      ensures r ==> GetAuthHeader().Authorization?
    {
      Present(token) && user.Some?
    }

    /** `getAuthHeader`: a bearer header exactly when the token is non-empty. */
    function GetAuthHeader(): (h: Header)
      reads this
      ensures h.Authorization? <==> token.Some? && token.value != ""
      ensures h.Authorization? ==> h.value == BearerPrefix + token.value
    {
      if Present(token) then Authorization(BearerPrefix + token.value) else NoHeader
    }

    /** The header carries the token back: stripping the prefix yields the token. */
    lemma HeaderRoundTrip()
      ensures HeaderToken(GetAuthHeader()) == (if Present(token) then token else None)
    {
      if Present(token) {
        var v := BearerPrefix + token.value;
        assert v[..|BearerPrefix|] == BearerPrefix;
        assert v[|BearerPrefix|..] == token.value;
      }
    }

    /**
     * `isTokenExpired`: no token, or a payload that does not decode, counts as
     * expired; otherwise the `exp` claim is compared with the clock in seconds.
     */
    function IsTokenExpired(decode: string -> Payload, nowMs: int): (r: bool)
      reads this
      ensures !Present(token) ==> r
      ensures Present(token) && decode(token.value).Undecodable? ==> r
      ensures Present(token) && decode(token.value).Claims? && decode(token.value).exp.None? ==> !r
      ensures Present(token) && decode(token.value).Claims? && decode(token.value).exp.Some? ==>
                (r <==> (decode(token.value).exp.value as real) < (nowMs as real) / 1000.0)
    {
      if !Present(token) then true else PayloadExpired(decode(token.value), nowMs)
    }

    /**
     * `checkTokenValidity`: an expired session is cleared and reported invalid;
     * a valid one is left as it is, and then carries a non-empty token.
     */
    method CheckTokenValidity(decode: string -> Payload, nowMs: int) returns (valid: bool)
      modifies this
      ensures valid == !old(IsTokenExpired(decode, nowMs))
      ensures !valid ==> token.None? && user.None? && storage == old(storage) - {TokenKey, UserKey}
      ensures valid ==> token == old(token) && user == old(user) && storage == old(storage)
      ensures valid ==> GetAuthHeader().Authorization?
      ensures old(Valid()) || !valid ==> Valid()
    {
      if IsTokenExpired(decode, nowMs) {
        ClearAuth();
        valid := false;
      } else {
        valid := true;
      }
    }
  }
}
