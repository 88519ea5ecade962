/**
 * Value model of the session state kept by the auth provider
 * (src/auth/AuthProvider.jsx): the session record, the outcomes of the two
 * calls to the identity service, and one function per transition.
 * The class in AuthProvider.dfy performs these transitions in place and is
 * specified by the functions here.
 */
module SessionModel {

  datatype Option<+T> = None | Some(value: T)

  /** The user record carried in the `data` field of /api/users/me, kept opaque. */
  datatype User = User(record: string)

  /** The body of an ok response to POST /api/users/refresh, once read as JSON. */
  datatype RefreshBody =
    | Unparsable                // reading the body as JSON threw
    | Json(success: bool)       // `{ success: ... }`

  /** What the `fetch` of POST /api/users/refresh delivered. */
  datatype RefreshOutcome =
    | TransportError                                // the fetch itself rejected
    | Response(status: int, body: RefreshBody)      // an HTTP response; the body is read only when ok

  /** What `apiFetch("/api/users/me")` delivered. */
  datatype ProfileOutcome =
    | Threw
    | Returned(success: bool, data: Option<User>)   // `data` is absent when the reply has none

  /** The only value ever written under the "isAuthenticated" storage key. */
  const AuthFlag: string := "true"

  /**
   * The provider's state. `storedFlag` is the value under the "isAuthenticated"
   * key of browser storage (None when the key is absent); `renewalActive` stands
   * for the refresh interval being installed.
   */
  datatype Session = Session(
    user: Option<User>,
    isAuthenticated: bool,
    loading: bool,
    hasCheckedAuth: bool,
    storedFlag: Option<string>,
    renewalActive: bool)

  /** `response.ok` of the Fetch standard: a status in the range 200-299. */
  predicate IsOk(status: int) {
    200 <= status <= 299
  }

  /** The one refresh outcome that keeps the session: an ok status whose body says `success: true`. */
  predicate RefreshSucceeded(outcome: RefreshOutcome) {
    outcome.Response? && IsOk(outcome.status) && outcome.body.Json? && outcome.body.success
  }

  /** The profile outcome that makes the provider store a user record. */
  predicate ProfileSucceeded(outcome: ProfileOutcome) {
    outcome.Returned? && outcome.success
  }

  /**
   * What the provider keeps true between transitions: no identity without
   * authentication, the stored flag mirrors authentication, and the renewal
   * interval runs exactly while authenticated.
   */
  predicate Consistent(s: Session) {
    && (!s.isAuthenticated ==> s.user == None)
    && (s.storedFlag == Some(AuthFlag) <==> s.isAuthenticated)
    && (s.renewalActive <==> s.isAuthenticated)
  }

  /**
   * Consistent, plus the loading phase of this model: `loading` holds exactly
   * until the run-once latch is set, and no user is known while loading. The
   * first clause holds because `Bootstrap` is one atomic step here. The component
   * sets the latch before its first request and turns `loading` off only once
   * the bootstrap settles.
   */
  predicate Valid(s: Session) {
    && Consistent(s)
    && (s.loading <==> !s.hasCheckedAuth)
    && (s.loading ==> s.user == None)
  }

  /** The state at mount, given what browser storage holds under "isAuthenticated". */
  function Initial(stored: Option<string>): (s: Session)
    ensures Valid(s)
    ensures s.isAuthenticated <==> stored == Some(AuthFlag)
    ensures s.user == None && s.loading && !s.hasCheckedAuth
    ensures s.storedFlag == stored
  {
    var authenticated := stored == Some(AuthFlag);
    Session(None, authenticated, true, false, stored, authenticated)
  }

  /**
   * The mount effect with its `checkAuth` bootstrap. A set latch makes it a
   * no-op; otherwise a stored flag other than "true" signs out without
   * contacting the service, a failed refresh signs out and removes the flag,
   * and a successful refresh signs in whatever the profile call does.
   */
  function Bootstrap(s: Session, refresh: RefreshOutcome, profile: ProfileOutcome): (r: Session)
    requires Valid(s)
    ensures Valid(r)
    ensures s.hasCheckedAuth ==> r == s
    ensures !s.hasCheckedAuth ==> r.hasCheckedAuth && !r.loading
    ensures !s.hasCheckedAuth && s.storedFlag != Some(AuthFlag) ==>
              !r.isAuthenticated && r.user == None && r.storedFlag == s.storedFlag
    ensures !s.hasCheckedAuth && s.storedFlag == Some(AuthFlag) && !RefreshSucceeded(refresh) ==>
              !r.isAuthenticated && r.user == None && r.storedFlag == None
    ensures !s.hasCheckedAuth && s.storedFlag == Some(AuthFlag) && RefreshSucceeded(refresh) ==>
              && r.isAuthenticated && r.storedFlag == Some(AuthFlag)
              && r.user == (if ProfileSucceeded(profile) then profile.data else None)
  {
    if s.hasCheckedAuth then s
    else
      var checking := s.(hasCheckedAuth := true);
      var settled :=
        if s.storedFlag != Some(AuthFlag) then
          checking.(isAuthenticated := false, user := None)
        else if RefreshSucceeded(refresh) then
          // a profile call that throws sets the same two values again
          var signedIn := checking.(isAuthenticated := true, storedFlag := Some(AuthFlag));
          if ProfileSucceeded(profile) then signedIn.(user := profile.data) else signedIn
        else
          checking.(isAuthenticated := false, user := None, storedFlag := None);
      settled.(loading := false, renewalActive := settled.isAuthenticated)
  }

  /**
   * Requests the bootstrap sends: none when the latch is set or the stored
   * flag is not "true", the refresh, and the profile call only after a
   * successful refresh.
   */
  function BootstrapRequests(s: Session, refresh: RefreshOutcome): (n: nat)
    ensures n <= 2
    ensures n == 0 <==> s.hasCheckedAuth || s.storedFlag != Some(AuthFlag)
    ensures n == 2 <==> !s.hasCheckedAuth && s.storedFlag == Some(AuthFlag) && RefreshSucceeded(refresh)
  {
    if s.hasCheckedAuth || s.storedFlag != Some(AuthFlag) then 0
    else if RefreshSucceeded(refresh) then 2
    else 1
  }

  /**
   * `login(userData)`: remember the user, authenticate and persist the flag;
   * no request is sent. `u` is None when the caller passes `null` or
   * `undefined`, which leaves an authenticated session without a user.
   */
  function Login(s: Session, u: Option<User>): (r: Session)
    requires Valid(s) && !s.loading
    ensures Valid(r)
    ensures r.user == u && r.isAuthenticated && r.storedFlag == Some(AuthFlag)
    ensures r.renewalActive
    ensures r.loading == s.loading && r.hasCheckedAuth == s.hasCheckedAuth
  {
    s.(user := u, isAuthenticated := true, storedFlag := Some(AuthFlag), renewalActive := true)
  }

  /** `logout()`: forget the user, drop authentication and the flag; the service is not told. */
  function Logout(s: Session): (r: Session)
    requires Valid(s) && !s.loading
    ensures Valid(r)
    ensures r.user == None && !r.isAuthenticated && r.storedFlag == None
    ensures !r.renewalActive
    ensures r.loading == s.loading && r.hasCheckedAuth == s.hasCheckedAuth
  {
    s.(user := None, isAuthenticated := false, storedFlag := None, renewalActive := false)
  }

  /** Logging out erases every trace of a preceding login. */
  lemma LogoutUndoesLogin(s: Session, u: Option<User>)
    requires Valid(s) && !s.loading
    ensures Logout(Login(s, u)) == Logout(s)
    ensures !s.isAuthenticated && s.storedFlag == None ==> Logout(Login(s, u)) == s
  {
  }
}
