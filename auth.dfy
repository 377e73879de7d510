/** The session holder (`AuthProvider` / `useAuth`): four cells of state
    (`currentUser`, `userData`, `loading`, `accessToken`) and the handlers
    that overwrite them. Each identity-provider call is replaced by its
    result (the signed-in user, or None when the call rejected) and each
    backend call by its `Response`. */
module Auth {
  import opened Basics
  import opened Backend

  /** A signed-in identity-provider user, with the ID token its
      `getIdToken()` yields. */
  datatype User = User(uid: string, email: string, idToken: string)

  /** The value the context provides to every consumer. */
  datatype AuthState = AuthState(
    currentUser: Option<User>,
    userData: Option<UserRecord>,
    loading: bool,
    accessToken: Option<string>)

  /** The body posted to `/create-user`. */
  datatype CreateUserRequest = CreateUserRequest(email: string, uid: string, authMethod: string)

  const PROVIDER_MISSING: string := "useAuth must be used within an AuthProvider"

  /** `useAuth`: the nearest provider's value, or the error it throws
      outside any provider. */
  function UseAuth(context: Option<AuthState>): (r: Result<AuthState, string>)
    ensures r.Failure? <==> context.None?
    ensures r.Failure? ==> r.error == PROVIDER_MISSING
    ensures r.Success? ==> r.value == context.value
  {
    if context.None? then Failure(PROVIDER_MISSING) else Success(context.value)
  }

  class AuthSession {
    var currentUser: Option<User>
    var userData: Option<UserRecord>
    var loading: bool
    var accessToken: Option<string>

    /** The provider mounts signed out and loading. */
    constructor ()
      ensures currentUser == None && userData == None && loading && accessToken == None
    {
      currentUser := None;
      userData := None;
      loading := true;
      accessToken := None;
    }

    function State(): AuthState
      reads this
    {
      AuthState(currentUser, userData, loading, accessToken)
    }

    /** `fetchUserData`: the profile on success, null on 404, on any other
        status and on a thrown error. It never throws. */
    method FetchUserData(response: Response<UserRecord>)
      modifies this
      ensures userData == (if response.Ok? then Some(response.body) else None)
      ensures currentUser == old(currentUser) && loading == old(loading) && accessToken == old(accessToken)
    {
      if response.Ok? {
        userData := Some(response.body);
      } else if response.NotFound? {
        userData := None;
      } else {
        userData := None;
      }
    }

    /** The `onAuthStateChanged` callback, for the user the provider
        reports and what the profile lookup answered (used only when there
        is a user). `lookedUp` is the uid sent to `/get-user-by-uid`. */
    method AuthStateChanged(user: Option<User>, lookup: Response<UserRecord>) returns (lookedUp: Option<string>)
      modifies this
      ensures currentUser == user && !loading
      ensures lookedUp == (if user.Some? then Some(user.value.uid) else None)
      ensures user.None? ==> userData == None && accessToken == None
      ensures user.Some? ==>
        && accessToken == Some(user.value.idToken)
        && userData == (if lookup.Ok? then Some(lookup.body) else None)
    {
      currentUser := user;
      lookedUp := None;
      if user.Some? {
        accessToken := Some(user.value.idToken);
        lookedUp := Some(user.value.uid);
        FetchUserData(lookup);
      } else {
        userData := None;
        accessToken := None;
      }
      loading := false;
    }

    /** `signup(email, password)`: `credential` is the account the provider
        created (None: it rejected), `create` what `/create-user` answered.
        Reports whether the handler threw and the body it posted. */
    method Signup(email: string, credential: Option<User>, create: Response<UserRecord>)
      returns (thrown: bool, sent: Option<CreateUserRequest>)
      modifies this
      ensures credential.None? ==> thrown && sent == None && unchanged(this)
      ensures credential.Some? ==>
        && currentUser == credential
        && accessToken == Some(credential.value.idToken)
        && sent == Some(CreateUserRequest(email, credential.value.uid, "email"))
        && loading == old(loading)
        && thrown == !create.Ok?
        && userData == (if create.Ok? then Some(create.body) else old(userData))
    {
      sent := None;
      if credential.None? {
        return true, None;
      }
      var user := credential.value;
      currentUser := Some(user);
      accessToken := Some(user.idToken);
      sent := Some(CreateUserRequest(email, user.uid, "email"));
      if !create.Ok? {
        return true, sent;
      }
      userData := Some(create.body);
      thrown := false;
    }

    /** `login(email, password)`: `credential` is the provider's sign-in
        result, `lookup` what `/get-user-by-uid` answered. When the sign-in
        rejects, the handler throws after raising `loading` and never
        lowers it again. */
    method Login(credential: Option<User>, lookup: Response<UserRecord>)
      returns (thrown: bool, lookedUp: Option<string>)
      modifies this
      ensures thrown == credential.None?
      ensures lookedUp == (if credential.Some? then Some(credential.value.uid) else None)
      ensures credential.None? ==>
        && loading
        && currentUser == old(currentUser) && userData == old(userData) && accessToken == old(accessToken)
      ensures credential.Some? ==>
        && !loading
        && currentUser == credential
        && accessToken == Some(credential.value.idToken)
        && userData == (if lookup.Ok? then Some(lookup.body) else None)
    {
      loading := true;
      if credential.None? {
        return true, None;
      }
      var user := credential.value;
      currentUser := Some(user);
      accessToken := Some(user.idToken);
      lookedUp := Some(user.uid);
      FetchUserData(lookup);
      loading := false;
      thrown := false;
    }

    /** `login` with `loading` lowered on every path (a `finally`), as the
        rest of the page flow evidently expects. */
    method LoginResettingLoading(credential: Option<User>, lookup: Response<UserRecord>)
      returns (thrown: bool, lookedUp: Option<string>)
      modifies this
      ensures thrown == credential.None?
      ensures lookedUp == (if credential.Some? then Some(credential.value.uid) else None)
      ensures !loading
      ensures credential.None? ==>
        currentUser == old(currentUser) && userData == old(userData) && accessToken == old(accessToken)
      ensures credential.Some? ==>
        && currentUser == credential
        && accessToken == Some(credential.value.idToken)
        && userData == (if lookup.Ok? then Some(lookup.body) else None)
    {
      loading := true;
      thrown := credential.None?;
      lookedUp := None;
      if credential.Some? {
        var user := credential.value;
        currentUser := Some(user);
        accessToken := Some(user.idToken);
        lookedUp := Some(user.uid);
        FetchUserData(lookup);
      }
      loading := false;
    }

    /** `signupWithGoogle`: `credential` is the popup's result, `lookup`
        what `/get-user-by-uid` answered and `create` what `/create-user`
        answered (asked only after a 404). An existing profile is adopted,
        a missing one is created; every other outcome throws, and a thrown
        handler leaves `loading` raised. */
    method SignupWithGoogle(credential: Option<User>, lookup: Response<UserRecord>, create: Response<UserRecord>)
      returns (thrown: bool, lookedUp: Option<string>, sent: Option<CreateUserRequest>)
      modifies this
      ensures lookedUp == (if credential.Some? then Some(credential.value.uid) else None)
      ensures credential.None? ==>
        && thrown && sent == None && loading
        && currentUser == old(currentUser) && userData == old(userData) && accessToken == old(accessToken)
      ensures credential.Some? ==>
        && currentUser == credential
        && accessToken == Some(credential.value.idToken)
        && sent == (if lookup.NotFound?
                    then Some(CreateUserRequest(credential.value.email, credential.value.uid, "google"))
                    else None)
        && thrown == !(lookup.Ok? || (lookup.NotFound? && create.Ok?))
        && loading == thrown
      ensures credential.Some? && lookup.Ok? ==> userData == Some(lookup.body)
      ensures credential.Some? && lookup.NotFound? ==>
        userData == (if create.Ok? then Some(create.body) else old(userData))
      ensures credential.Some? && !lookup.Ok? && !lookup.NotFound? ==> userData == old(userData)
    {
      sent := None;
      loading := true;
      if credential.None? {
        return true, None, None;
      }
      var user := credential.value;
      currentUser := Some(user);
      accessToken := Some(user.idToken);
      lookedUp := Some(user.uid);
      if lookup.Ok? {
        userData := Some(lookup.body);
      } else if lookup.NotFound? {
        sent := Some(CreateUserRequest(user.email, user.uid, "google"));
        if !create.Ok? {
          return true, lookedUp, sent;
        }
        userData := Some(create.body);
      } else {
        return true, lookedUp, None;
      }
      loading := false;
      thrown := false;
    }

    /** `loginWithGoogle`: adopts an existing profile; a missing profile
        signs the user straight out again (when `signOutOk`, the provider's
        sign-out resolved) and throws; any other status throws. `loading`
        is never touched. */
    method LoginWithGoogle(credential: Option<User>, lookup: Response<UserRecord>, signOutOk: bool)
      returns (thrown: bool, lookedUp: Option<string>)
      modifies this
      ensures lookedUp == (if credential.Some? then Some(credential.value.uid) else None)
      ensures loading == old(loading)
      ensures thrown == (credential.None? || !lookup.Ok?)
      ensures credential.None? ==>
        currentUser == old(currentUser) && userData == old(userData) && accessToken == old(accessToken)
      ensures credential.Some? && lookup.Ok? ==>
        && currentUser == credential && accessToken == Some(credential.value.idToken)
        && userData == Some(lookup.body)
      ensures credential.Some? && lookup.NotFound? && signOutOk ==>
        currentUser == None && accessToken == None && userData == None
      ensures credential.Some? && !lookup.Ok? && !(lookup.NotFound? && signOutOk) ==>
        && currentUser == credential && accessToken == Some(credential.value.idToken)
        && userData == old(userData)
    {
      if credential.None? {
        return true, None;
      }
      var user := credential.value;
      currentUser := Some(user);
      accessToken := Some(user.idToken);
      lookedUp := Some(user.uid);
      if lookup.Ok? {
        userData := Some(lookup.body);
        return false, lookedUp;
      } else if lookup.NotFound? {
        if !signOutOk {
          return true, lookedUp;
        }
        currentUser := None;
        accessToken := None;
        userData := None;
        return true, lookedUp;
      } else {
        return true, lookedUp;
      }
    }

    /** `logout`: once the provider's sign-out resolves, every identity
        cell is cleared. */
    method Logout(signOutOk: bool) returns (thrown: bool)
      modifies this
      ensures thrown == !signOutOk
      ensures loading == old(loading)
      ensures signOutOk ==> userData == None && currentUser == None && accessToken == None
      ensures !signOutOk ==> unchanged(this)
    {
      if !signOutOk {
        return true;
      }
      userData := None;
      currentUser := None;
      accessToken := None;
      thrown := false;
    }

    /** `updateUserData` */
    method UpdateUserData(data: UserRecord)
      modifies this
      ensures userData == Some(data)
      ensures currentUser == old(currentUser) && loading == old(loading) && accessToken == old(accessToken)
    {
      userData := Some(data);
    }

    /** `refetchData`: reload the profile of the current user; with nobody
        signed in, nothing changes. */
    method RefetchData(lookup: Response<UserRecord>) returns (lookedUp: Option<string>)
      modifies this
      ensures lookedUp == (if old(currentUser).Some? then Some(old(currentUser).value.uid) else None)
      ensures old(currentUser).None? ==> unchanged(this)
      ensures old(currentUser).Some? ==> userData == (if lookup.Ok? then Some(lookup.body) else None)
      ensures currentUser == old(currentUser) && loading == old(loading) && accessToken == old(accessToken)
    {
      lookedUp := None;
      if currentUser.Some? {
        lookedUp := Some(currentUser.value.uid);
        FetchUserData(lookup);
      }
    }
  }
}
