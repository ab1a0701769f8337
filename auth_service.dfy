/** The session store (`AuthService`): the access token, the refresh token and
    the serialized user under three fixed browser-storage keys, plus the two
    published cells "current user" and "authenticated".

    Browser storage is a `map<string, string>`; the current time is a
    parameter; every HTTP call is replaced by the reply the caller supplies.
    `JSON.stringify`/`JSON.parse` of the user and the decoding of a token's
    payload segment are functions handed to the service when it is built. */
module Auth {
  import opened Strings

  const TokenKey := "app_token"
  const UserKey := "app_user"
  const RefreshTokenKey := "app_refresh_token"

  datatype UserRole = Admin | Instructor | Student

  datatype User = User(
    id: string,
    email: string,
    firstName: string,
    lastName: string,
    role: UserRole,
    isActive: bool,
    createdAt: string,
    updatedAt: string,
    lastLoginAt: Option<string>)

  datatype LoginRequest = LoginRequest(email: string, password: string)

  datatype LoginResponse = LoginResponse(user: User, token: string, refreshToken: string, expiresIn: int)

  /** The reply of one HTTP request: its data, or a failure. */
  datatype Reply<T> = Success(data: T) | Failure

  /** What `JSON.parse` makes of stored user text: a parse error (which
      `getStoredUser` does not catch), a falsy JSON value such as `null`, or a
      user record. */
  datatype ParsedUser = NotJson | FalsyJson | UserJson(user: User)

  /** What `getStoredUser` yields. */
  datatype StoredUserRead = NoUser | ParseThrows | Found(user: User)

  /** What `refreshToken` ends with. */
  datatype RefreshResult = NoRefreshToken | Refreshed(response: LoginResponse) | RefreshFailed

  type Storage = map<string, string>

  /** `localStorage.getItem(key)`: the stored text, or `None` (`null`). */
  function Get(s: Storage, key: string): (r: Option<string>)
    ensures r.Some? <==> key in s
    ensures r.Some? ==> r.value == s[key]
  {
    if key in s then Some(s[key]) else None
  }

  /** A stored string is truthy when present and non-empty. */
  predicate Present(v: Option<string>) {
    v.Some? && v.value != ""
  }

  /** `getStoredUser`: empty or missing text gives no user; other text is parsed. */
  function StoredUser(s: Storage, parse: string -> ParsedUser): (r: StoredUserRead)
    ensures !Present(Get(s, UserKey)) ==> r == NoUser
    ensures r.Found? ==> Present(Get(s, UserKey)) && parse(s[UserKey]) == UserJson(r.user)
    ensures r == ParseThrows <==> Present(Get(s, UserKey)) && parse(s[UserKey]) == NotJson
    ensures r == NoUser <==> !Present(Get(s, UserKey)) || parse(s[UserKey]) == FalsyJson
    ensures r.Found? <==> Present(Get(s, UserKey)) && parse(s[UserKey]).UserJson?
  {
    var text := Get(s, UserKey);
    if !Present(text) then NoUser
    else match parse(text.value)
      case NotJson => ParseThrows
      case FalsyJson => NoUser
      case UserJson(u) => Found(u)
  }

  /** `isTokenValid`: the `exp` claim of the token's second segment, in
      seconds, lies after the current time `nowMs` in milliseconds. A missing
      segment, a failed decode or a missing `exp` gives false. */
  function TokenValid(token: string, nowMs: int, decodeExp: string -> Option<int>): (ok: bool)
    ensures ok ==> SecondField(token, '.').Some?
    ensures ok <==> SecondField(token, '.').Some? && decodeExp(SecondField(token, '.').value).Some?
                    && decodeExp(SecondField(token, '.').value).value * 1000 > nowMs
  {
    match SecondField(token, '.')
    case None => false
    case Some(payload) =>
      match decodeExp(payload)
      case None => false
      case Some(exp) => exp * 1000 > nowMs
  }

  /** A token is valid exactly until its expiry instant. */
  lemma TokenValidUntilExpiry(header: string, payload: string, signature: string, nowMs: int,
                              decodeExp: string -> Option<int>)
    requires '.' !in header && '.' !in payload
    requires decodeExp(payload).Some?
    ensures TokenValid(header + "." + payload + "." + signature, nowMs, decodeExp)
            <==> nowMs < decodeExp(payload).value * 1000
  {
    SecondFieldJoin(header, '.', payload, signature);
  }

  /** Validity only ever ends: a token valid at some time was valid before. */
  lemma TokenValidityMonotone(token: string, earlier: int, later: int, decodeExp: string -> Option<int>)
    requires earlier <= later
    requires TokenValid(token, later, decodeExp)
    ensures TokenValid(token, earlier, decodeExp)
  {
  }

  /** `initializeAuth` restores a session exactly when a token and a user are
      stored and the token is valid. */
  predicate Restorable(s: Storage, nowMs: int, parse: string -> ParsedUser, decodeExp: string -> Option<int>) {
    Present(Get(s, TokenKey)) && StoredUser(s, parse).Found? && TokenValid(s[TokenKey], nowMs, decodeExp)
  }

  /** `clearAuthData` on storage: exactly the three keys go. */
  function Cleared(s: Storage): (r: Storage)
    ensures r.Keys == s.Keys - {TokenKey, RefreshTokenKey, UserKey}
    ensures forall k :: k in r ==> r[k] == s[k]
  {
    s - {TokenKey, RefreshTokenKey, UserKey}
  }

  /** `setAuthData` on storage: the three keys are written, nothing else. */
  function WithSession(s: Storage, r: LoginResponse, stringify: User -> string): (t: Storage)
    ensures t.Keys == s.Keys + {TokenKey, RefreshTokenKey, UserKey}
    ensures t[TokenKey] == r.token && t[RefreshTokenKey] == r.refreshToken && t[UserKey] == stringify(r.user)
    ensures forall k :: k in s && k !in {TokenKey, RefreshTokenKey, UserKey} ==> t[k] == s[k]
  {
    s[TokenKey := r.token][RefreshTokenKey := r.refreshToken][UserKey := stringify(r.user)]
  }

  /** A session written by a login is restored at start-up exactly when its
      token is non-empty and still valid (given that stored users parse back). */
  lemma LoginThenRestore(s: Storage, r: LoginResponse, nowMs: int, parse: string -> ParsedUser,
                         stringify: User -> string, decodeExp: string -> Option<int>)
    requires parse(stringify(r.user)) == UserJson(r.user)
    requires stringify(r.user) != ""
    ensures StoredUser(WithSession(s, r, stringify), parse) == Found(r.user)
    ensures Restorable(WithSession(s, r, stringify), nowMs, parse, decodeExp)
            <==> r.token != "" && TokenValid(r.token, nowMs, decodeExp)
  {
    var t := WithSession(s, r, stringify);
    assert Get(t, UserKey) == Some(stringify(r.user));
    assert Get(t, TokenKey) == Some(r.token);
  }

  /** After `clearAuthData` nothing can be restored. */
  lemma ClearedNotRestorable(s: Storage, nowMs: int, parse: string -> ParsedUser, decodeExp: string -> Option<int>)
    ensures !Restorable(Cleared(s), nowMs, parse, decodeExp)
    ensures StoredUser(Cleared(s), parse) == NoUser
  {
    assert Get(Cleared(s), TokenKey) == None;
    assert Get(Cleared(s), UserKey) == None;
  }

  class AuthService {
    const parseUser: string -> ParsedUser
    const stringifyUser: User -> string
    const decodeExp: string -> Option<int>
    /** Browser storage. */
    var storage: Storage
    /** `currentUserSubject.value` */
    var currentUser: Option<User>
    /** `isAuthenticatedSubject.value` */
    var isAuthenticated: bool

    /** The service before `initializeAuth` has run: nothing published yet.
        Construction in the source ends by calling `InitializeAuth`. */
    constructor (storage: Storage, parseUser: string -> ParsedUser,
                 stringifyUser: User -> string, decodeExp: string -> Option<int>)
      ensures this.parseUser == parseUser && this.stringifyUser == stringifyUser && this.decodeExp == decodeExp
      ensures this.storage == storage && currentUser == None && !isAuthenticated
    {
      this.parseUser := parseUser;
      this.stringifyUser := stringifyUser;
      this.decodeExp := decodeExp;
      this.storage := storage;
      currentUser := None;
      isAuthenticated := false;
    }

    /** `initializeAuth`; `threw` reports that parsing the stored user
        raised, which aborts it before any change. */
    method InitializeAuth(nowMs: int) returns (threw: bool)
      modifies this`storage, this`currentUser, this`isAuthenticated
      ensures threw <==> StoredUser(old(storage), parseUser) == ParseThrows
      ensures threw ==> storage == old(storage) && currentUser == old(currentUser)
                        && isAuthenticated == old(isAuthenticated)
      ensures !threw && Restorable(old(storage), nowMs, parseUser, decodeExp) ==>
        storage == old(storage) && currentUser == Some(StoredUser(storage, parseUser).user) && isAuthenticated
      ensures !threw && !Restorable(old(storage), nowMs, parseUser, decodeExp) ==>
        storage == Cleared(old(storage)) && currentUser == None && !isAuthenticated
    {
      var token := Get(storage, TokenKey);
      var user := StoredUser(storage, parseUser);
      if user == ParseThrows {
        return true;
      }
      threw := false;
      if Present(token) && user.Found? && TokenValid(token.value, nowMs, decodeExp) {
        currentUser := Some(user.user);
        isAuthenticated := true;
      } else {
        ClearAuthData();
      }
    }

    method SetAuthData(response: LoginResponse)
      modifies this`storage, this`currentUser, this`isAuthenticated
      ensures storage == WithSession(old(storage), response, stringifyUser)
      ensures currentUser == Some(response.user) && isAuthenticated
    {
      storage := storage[TokenKey := response.token];
      storage := storage[RefreshTokenKey := response.refreshToken];
      storage := storage[UserKey := stringifyUser(response.user)];
      currentUser := Some(response.user);
      isAuthenticated := true;
    }

    method ClearAuthData()
      modifies this`storage, this`currentUser, this`isAuthenticated
      ensures storage == Cleared(old(storage))
      ensures currentUser == None && !isAuthenticated
    {
      storage := storage - {TokenKey};
      storage := storage - {RefreshTokenKey};
      storage := storage - {UserKey};
      currentUser := None;
      isAuthenticated := false;
    }

    /** `login`: a successful reply starts the session; a failed one changes
        nothing and is passed on. */
    method Login(credentials: LoginRequest, reply: Reply<LoginResponse>) returns (result: Reply<LoginResponse>)
      modifies this`storage, this`currentUser, this`isAuthenticated
      ensures result == reply
      ensures reply.Success? ==>
        storage == WithSession(old(storage), reply.data, stringifyUser)
        && currentUser == Some(reply.data.user) && isAuthenticated
      ensures reply.Failure? ==>
        storage == old(storage) && currentUser == old(currentUser) && isAuthenticated == old(isAuthenticated)
    {
      if reply.Success? {
        SetAuthData(reply.data);
      }
      result := reply;
    }

    /** `logout`: the session is cleared whether or not the server call
        succeeded; its failure is swallowed. */
    method Logout()
      modifies this`storage, this`currentUser, this`isAuthenticated
      ensures storage == Cleared(old(storage))
      ensures currentUser == None && !isAuthenticated
    {
      ClearAuthData();
    }

    /** `refreshToken`: with no stored refresh token the session is cleared
        and no request is made (`reply` is not consulted); a failed request
        clears the session too. */
    method RefreshToken(reply: Reply<LoginResponse>) returns (result: RefreshResult)
      modifies this`storage, this`currentUser, this`isAuthenticated
      ensures !Present(Get(old(storage), RefreshTokenKey)) ==>
        result == NoRefreshToken && storage == Cleared(old(storage)) && currentUser == None && !isAuthenticated
      ensures Present(Get(old(storage), RefreshTokenKey)) && reply.Success? ==>
        result == Refreshed(reply.data)
        && storage == WithSession(old(storage), reply.data, stringifyUser)
        && currentUser == Some(reply.data.user) && isAuthenticated
      ensures Present(Get(old(storage), RefreshTokenKey)) && reply.Failure? ==>
        result == RefreshFailed && storage == Cleared(old(storage)) && currentUser == None && !isAuthenticated
    {
      var refreshToken := Get(storage, RefreshTokenKey);
      if !Present(refreshToken) {
        ClearAuthData();
        return NoRefreshToken;
      }
      if reply.Success? {
        SetAuthData(reply.data);
        result := Refreshed(reply.data);
      } else {
        ClearAuthData();
        result := RefreshFailed;
      }
    }

    /** `updateProfile`: success replaces the current and the stored user only. */
    method UpdateProfile(reply: Reply<User>) returns (result: Reply<User>)
      modifies this`storage, this`currentUser
      ensures result == reply
      ensures reply.Success? ==>
        currentUser == Some(reply.data) && storage == old(storage)[UserKey := stringifyUser(reply.data)]
      ensures reply.Failure? ==> currentUser == old(currentUser) && storage == old(storage)
    {
      if reply.Success? {
        currentUser := Some(reply.data);
        storage := storage[UserKey := stringifyUser(reply.data)];
      }
      result := reply;
    }

    function GetStoredToken(): (r: Option<string>)
      reads this
      ensures r.Some? <==> TokenKey in storage
      ensures r.Some? ==> r.value == storage[TokenKey]
    {
      Get(storage, TokenKey)
    }

    /** `getStoredUser`: no user for missing, empty or falsy text; the
        parse error of other non-JSON text propagates. */
    function GetStoredUser(): (r: StoredUserRead)
      reads this
      ensures r == StoredUser(storage, parseUser)
      ensures r == NoUser <==>
        UserKey !in storage || storage[UserKey] == "" || parseUser(storage[UserKey]) == FalsyJson
      ensures r == ParseThrows <==>
        UserKey in storage && storage[UserKey] != "" && parseUser(storage[UserKey]) == NotJson
      ensures r.Found? <==> UserKey in storage && storage[UserKey] != "" && parseUser(storage[UserKey]).UserJson?
      ensures r.Found? ==> r.user == parseUser(storage[UserKey]).user
    {
      StoredUser(storage, parseUser)
    }

    /** `isAdmin`: false with nobody signed in; otherwise whether the
        current user's role is admin. */
    function IsAdmin(): (r: bool)
      reads this
      ensures currentUser.None? ==> !r
      ensures currentUser.Some? ==> (r <==> currentUser.value.role == Admin)
    {
      currentUser.Some? && currentUser.value.role == Admin
    }

    /** `isInstructor`: false with nobody signed in; otherwise whether the
        current user's role is instructor. */
    function IsInstructor(): (r: bool)
      reads this
      ensures currentUser.None? ==> !r
      ensures currentUser.Some? ==> (r <==> currentUser.value.role == Instructor)
    {
      currentUser.Some? && currentUser.value.role == Instructor
    }

    /** `isStudent`: false with nobody signed in; otherwise whether the
        current user's role is student. */
    function IsStudent(): (r: bool)
      reads this
      ensures currentUser.None? ==> !r
      ensures currentUser.Some? ==> (r <==> currentUser.value.role == Student)
    {
      currentUser.Some? && currentUser.value.role == Student
    }
  }

  /** Exactly one role check holds for a signed-in user, the one naming the
      user's role; with no current user none holds. */
  lemma RoleChecksExclusive(a: AuthService)
    ensures a.currentUser.None? ==> !a.IsAdmin() && !a.IsInstructor() && !a.IsStudent()
    ensures a.currentUser.Some? ==>
      && (a.IsAdmin() <==> a.currentUser.value.role == Admin)
      && (a.IsInstructor() <==> a.currentUser.value.role == Instructor)
      && (a.IsStudent() <==> a.currentUser.value.role == Student)
      && (if a.IsAdmin() then 1 else 0) + (if a.IsInstructor() then 1 else 0) + (if a.IsStudent() then 1 else 0) == 1
  {
  }
}
