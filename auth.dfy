/** The session store: the signed-in user, the loading and error flags, and the two
    browser-storage keys that persist a session. */
module Auth {
  import opened Common

  datatype User = User(id: string, name: string, email: string, isAdmin: bool)

  /** A value in browser storage: plain text, or `JSON.stringify` of a user. */
  datatype Stored = Text(text: string) | UserJson(user: User)

  type Storage = map<string, Stored>

  const TokenKey := "token"
  const UserKey := "user"

  /** The body of a successful login or registration; either field may be missing. */
  datatype AuthResponse = AuthResponse(user: Option<User>, token: Option<string>)

  /** What `localStorage.setItem` keeps for a value that may be `undefined`: storage
      holds text, so a missing value is kept as the text "undefined". */
  const Undefined := Text("undefined")

  function TokenEntry(token: Option<string>): (e: Stored)
    ensures token.Some? ==> e == Text(token.value)
    ensures token.None? ==> e == Undefined
  {
    match token case Some(t) => Text(t) case None => Undefined
  }

  /** `JSON.stringify(user)`, which is `undefined` for a missing user. */
  function UserEntry(user: Option<User>): (e: Stored)
    ensures user.Some? ==> e == UserJson(user.value)
    ensures user.None? ==> e == Undefined
  {
    match user case Some(u) => UserJson(u) case None => Undefined
  }

  const UseAuthOutsideProvider := "useAuth must be used within an AuthProvider"

  /** JavaScript truthiness of `localStorage.getItem(key)`: a missing key gives `null`
      and the empty string is falsy; a serialised user is never empty. */
  predicate StoredTruthy(storage: Storage, key: string)
  {
    key in storage && match storage[key] { case Text(t) => t != "" case UserJson(_) => true }
  }

  /** `localStorage.setItem` of the token and the serialised user. */
  function StoreSession(storage: Storage, response: AuthResponse): (r: Storage)
    ensures r.Keys == storage.Keys + {TokenKey, UserKey}
    ensures r[TokenKey] == TokenEntry(response.token) && r[UserKey] == UserEntry(response.user)
    ensures forall k :: k in storage && k != TokenKey && k != UserKey ==> r[k] == storage[k]
  {
    storage[TokenKey := TokenEntry(response.token)][UserKey := UserEntry(response.user)]
  }

  /** The `logout` of the auth API: both session keys are removed. */
  function ClearSession(storage: Storage): (r: Storage)
    ensures r.Keys == storage.Keys - {TokenKey, UserKey}
    ensures forall k :: k in r ==> r[k] == storage[k]
  {
    storage - {TokenKey, UserKey}
  }

  /** Clearing twice is clearing once. */
  lemma ClearSessionIdempotent(storage: Storage)
    ensures ClearSession(ClearSession(storage)) == ClearSession(storage)
  {
  }

  /** Logging out after logging in leaves storage as logging out alone would: only
      the two session keys were touched. */
  lemma StoreThenClear(storage: Storage, response: AuthResponse)
    ensures ClearSession(StoreSession(storage, response)) == ClearSession(storage)
  {
  }

  /** A stored session makes the next start ask for the profile unless its token was
      empty; a missing token was stored as "undefined", which is truthy. */
  lemma StoredSessionRestores(storage: Storage, response: AuthResponse)
    ensures StoredTruthy(StoreSession(storage, response), TokenKey) <==> response.token.None? || response.token.value != ""
  {
  }

  /** `isAuthenticated`: exactly when a user is set. */
  function IsAuthenticated(user: Option<User>): (b: bool)
    ensures b <==> user.Some?
  {
    user.Some?
  }

  /** `isAdmin`: the user's flag, or false with nobody signed in. */
  function IsAdmin(user: Option<User>): (b: bool)
    ensures b ==> IsAuthenticated(user)
    ensures b <==> user.Some? && user.value.isAdmin
  {
    match user
    case Some(u) => u.isAdmin
    case None => false
  }

  /** `useAuth`: the context value, or the error thrown outside a provider. */
  function UseAuth<C>(context: Option<C>): (r: Outcome<C>)
    ensures context.Some? ==> r == Ok(context.value)
    ensures context.None? ==> r == Err(Failure(UseAuthOutsideProvider, ""))
  {
    match context
    case Some(c) => Ok(c)
    case None => Err(Failure(UseAuthOutsideProvider, ""))
  }

  class AuthProvider {
    var user: Option<User>
    var loading: bool
    var error: Option<string>
    var storage: Storage

    /** Mounting the provider over the browser's current storage. */
    constructor (storage: Storage)
      ensures user.None? && loading && error.None? && this.storage == storage
    {
      user := None;
      loading := true;
      error := None;
      this.storage := storage;
    }

    /** The restore effect up to the profile request: returns whether one was made.
        Without a stored token loading ends at once. */
    method Restore() returns (profileRequested: bool)
      modifies this
      ensures profileRequested <==> StoredTruthy(old(storage), TokenKey)
      ensures !profileRequested ==> !loading
      ensures profileRequested ==> loading == old(loading)
      ensures user == old(user) && error == old(error) && storage == old(storage)
    {
      profileRequested := StoredTruthy(storage, TokenKey);
      if !profileRequested {
        loading := false;
      }
    }

    /** The restore effect once `getProfile` settled with `response.user` (`None` when
        the response has no user): a rejected token is forgotten. */
    method ProfileSettled(profile: Outcome<Option<User>>)
      modifies this
      ensures !loading
      ensures profile.Ok? ==> user == profile.value && storage == old(storage)
      ensures profile.Err? ==> user == old(user) && storage == ClearSession(old(storage))
      ensures error == old(error)
    {
      match profile {
        case Ok(u) => user := u;
        case Err(_) => storage := ClearSession(storage);
      }
      loading := false;
    }

    /** `login` and `register` up to their `await`: the error is cleared. */
    method BeginSignIn()
      modifies this
      ensures error.None?
      ensures user == old(user) && loading == old(loading) && storage == old(storage)
    {
      error := None;
    }

    /** `login` once the login request settled; the outcome is passed on to the
        caller (a failure is rethrown). */
    method LoginSettled(response: Outcome<AuthResponse>) returns (result: Outcome<AuthResponse>)
      modifies this
      ensures result == response
      ensures response.Ok? ==>
        && user == response.value.user && error == old(error)
        && storage == StoreSession(old(storage), response.value)
      ensures response.Err? ==>
        && error == Some(OrElse(response.failure.serverMessage, "Login failed"))
        && user == old(user) && storage == old(storage)
      ensures loading == old(loading)
    {
      result := SignInSettled(response, "Login failed");
    }

    /** `register` once the registration request settled: the same steps with its own
        fallback message. */
    method RegisterSettled(response: Outcome<AuthResponse>) returns (result: Outcome<AuthResponse>)
      modifies this
      ensures result == response
      ensures response.Ok? ==>
        && user == response.value.user && error == old(error)
        && storage == StoreSession(old(storage), response.value)
      ensures response.Err? ==>
        && error == Some(OrElse(response.failure.serverMessage, "Registration failed"))
        && user == old(user) && storage == old(storage)
      ensures loading == old(loading)
    {
      result := SignInSettled(response, "Registration failed");
    }

    /** The steps `login` and `register` share after their `await`: on success the
        session is stored and the response's user (`None` when it has none) set, on
        failure the server's message or `fallback` becomes the error. */
    method SignInSettled(response: Outcome<AuthResponse>, fallback: string) returns (result: Outcome<AuthResponse>)
      modifies this
      ensures result == response
      ensures response.Ok? ==>
        && user == response.value.user && error == old(error)
        && storage == StoreSession(old(storage), response.value)
      ensures response.Err? ==>
        && error == Some(OrElse(response.failure.serverMessage, fallback))
        && user == old(user) && storage == old(storage)
      ensures loading == old(loading)
    {
      match response {
        case Ok(r) =>
          storage := StoreSession(storage, r);
          user := r.user;
        case Err(f) =>
          error := Some(OrElse(f.serverMessage, fallback));
      }
      result := response;
    }

    method Logout()
      modifies this
      ensures storage == ClearSession(old(storage))
      ensures user.None? && error.None? && !IsAuthenticated(user) && !IsAdmin(user)
      ensures loading == old(loading)
    {
      storage := ClearSession(storage);
      user := None;
      error := None;
    }

    method ClearError()
      modifies this
      ensures error.None?
      ensures user == old(user) && loading == old(loading) && storage == old(storage)
    {
      error := None;
    }
  }
}
