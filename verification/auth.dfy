/** `AuthProvider` (eswika-frontend/src/context/AuthContext.jsx): the session
    user kept in React state, restored from browser storage on mount,
    written by `login`, cleared by `logout`, and the role helpers. */
module Auth {
  import opened Common
  import opened Browser
  import opened StoredUser

  const AdminLoginEndpoint := "http://localhost:5000/api/admin/login"
  const UserLoginEndpoint := "http://localhost:5000/api/login"

  /** `login` posts to the administrators' endpoint exactly when the form
      asks for the admin role. */
  function LoginEndpoint(chosenType: string): (url: string)
    ensures url == AdminLoginEndpoint <==> chosenType == "admin"
    ensures url == UserLoginEndpoint <==> chosenType != "admin"
  {
    if chosenType == "admin" then AdminLoginEndpoint else UserLoginEndpoint
  }

  /** `user_type || userType`: the type the server answers with, unless it
      is missing, null or empty. */
  function SessionType(reply: LoginReply, chosenType: string): (t: string)
    ensures t == chosenType || (reply.userType.Present? && t == reply.userType.value)
    ensures t == "" ==> chosenType == ""
    ensures FieldTruthy(reply.userType) ==> t == reply.userType.value
  {
    if FieldTruthy(reply.userType) then reply.userType.value else chosenType
  }

  /** The record `login` stores and puts in state. */
  function SessionRecord(reply: LoginReply, chosenType: string): UserData
  {
    UserData(reply.userId, SessionType(reply, chosenType))
  }

  /** `isAuthenticated`, `isAdmin`, `isFarmer`, `isCustomer`. */
  predicate IsAuthenticated(user: Option<UserData>) { user.Some? }
  predicate IsAdmin(user: Option<UserData>) { user.Some? && user.value.userType == "admin" }
  predicate IsFarmer(user: Option<UserData>) { user.Some? && user.value.userType == "farmer" }
  predicate IsCustomer(user: Option<UserData>) { user.Some? && user.value.userType == "customer" }

  /** Each role helper needs a session user, and at most one of them holds. */
  lemma RolesExclusive(user: Option<UserData>)
    ensures IsAdmin(user) || IsFarmer(user) || IsCustomer(user) ==> IsAuthenticated(user)
    ensures !(IsAdmin(user) && IsFarmer(user))
    ensures !(IsAdmin(user) && IsCustomer(user))
    ensures !(IsFarmer(user) && IsCustomer(user))
  {
  }

  class AuthProvider {
    const window: Window
    var user: Option<UserData>
    var loading: bool

    /** The state user is the record stored under `userData`. */
    ghost predicate Consistent()
      reads this, window
    {
      user.Some? ==> UserDataKey in window.storage && Decode(window.storage[UserDataKey]) == user
    }

    /** `useState(null)` and `useState(true)`. */
    constructor (window: Window)
      ensures this.window == window && user == None && loading
      ensures Consistent()
    {
      this.window := window;
      user := None;
      loading := true;
    }

    /** The mount effect. `threw` is a `JSON.parse` that raises on stored
        text; the effect then stops before `setLoading(false)` and the
        provider keeps rendering nothing. */
    method Init() returns (threw: bool)
      modifies this`user, this`loading, window`defaultAuthorization
      ensures Truthy(window.storage, TokenKey) ==>
                window.defaultAuthorization == Some("Bearer " + window.storage[TokenKey])
      ensures !Truthy(window.storage, TokenKey) ==> window.defaultAuthorization == old(window.defaultAuthorization)
      ensures threw <==>
                Truthy(window.storage, TokenKey) && Truthy(window.storage, UserDataKey) &&
                Decode(window.storage[UserDataKey]).None?
      ensures user != old(user) ==> Truthy(window.storage, TokenKey) && Truthy(window.storage, UserDataKey)
      ensures Truthy(window.storage, TokenKey) && Truthy(window.storage, UserDataKey) && !threw ==>
                user == Decode(window.storage[UserDataKey])
      ensures !(Truthy(window.storage, TokenKey) && Truthy(window.storage, UserDataKey)) ==> user == old(user)
      ensures threw ==> user == old(user)
      ensures loading == (threw && old(loading))
      ensures old(Consistent()) ==> Consistent()
    {
      threw := false;
      if Truthy(window.storage, TokenKey) {
        window.defaultAuthorization := Some("Bearer " + window.storage[TokenKey]);
        if Truthy(window.storage, UserDataKey) {
          var parsed := Decode(window.storage[UserDataKey]);
          if parsed.None? {
            threw := true;
            return;
          }
          user := parsed;
        }
      }
      loading := false;
    }

    /** `login(email, password, userType)`. `reply` is the answer to the
        post (axios rejects any status outside 200-299, and `login`
        rethrows before writing anything); `endpoint` is where it went. */
    method Login(chosenType: string, reply: Reply<LoginReply>) returns (ok: bool, endpoint: string)
      modifies this`user, window`storage, window`defaultAuthorization
      ensures endpoint == LoginEndpoint(chosenType)
      ensures ok <==> reply.Ok()
      ensures !ok ==>
                user == old(user) && window.storage == old(window.storage) &&
                window.defaultAuthorization == old(window.defaultAuthorization)
      ensures ok ==>
                window.storage == old(window.storage)[TokenKey := FieldText(reply.body.token)]
                                                     [UserDataKey := Encode(SessionRecord(reply.body, chosenType))] &&
                window.defaultAuthorization == Some("Bearer " + FieldText(reply.body.token)) &&
                user == Some(SessionRecord(reply.body, chosenType))
      ensures ok ==> Consistent() && Decode(window.storage[UserDataKey]) == user
      ensures old(Consistent()) ==> Consistent()
    {
      endpoint := LoginEndpoint(chosenType);
      if !reply.Ok() {
        return false, endpoint;
      }
      var record := SessionRecord(reply.body, chosenType);
      var token := FieldText(reply.body.token);
      window.SetItem(TokenKey, token);
      window.SetItem(UserDataKey, Encode(record));
      window.defaultAuthorization := Some("Bearer " + token);
      user := Some(record);
      DecodeEncode(record);
      ok := true;
    }

    /** `logout`. */
    method Logout()
      modifies this`user, window`storage, window`defaultAuthorization
      ensures window.storage == old(window.storage) - {TokenKey, UserDataKey}
      ensures window.defaultAuthorization == None && user == None
      ensures !IsAuthenticated(user) && Consistent()
    {
      window.RemoveItem(TokenKey);
      window.RemoveItem(UserDataKey);
      window.defaultAuthorization := None;
      user := None;
    }
  }
}
