/**
 * The auth provider component (src/auth/AuthProvider.jsx) as an object whose
 * methods update its fields step by step, in the order the component calls
 * its state setters, writes browser storage and installs or clears the
 * renewal interval. Each method is specified by its transition in
 * SessionModel.
 */
module AuthProviderComponent {
  import M = SessionModel

  class AuthProvider {
    var user: M.Option<M.User>
    var isAuthenticated: bool
    var loading: bool
    /** The run-once latch held in a ref. */
    var hasCheckedAuth: bool
    /** Browser storage under the key "isAuthenticated"; None when the key is absent. */
    var storedFlag: M.Option<string>
    /** Whether the renewal interval is installed. */
    var renewalActive: bool
    /** Requests sent to the identity service so far (the profile call counts as one). */
    ghost var requests: nat

    /** The fields, read as a value of the model. */
    function State(): M.Session
      reads this
    {
      M.Session(user, isAuthenticated, loading, hasCheckedAuth, storedFlag, renewalActive)
    }

    ghost predicate Valid()
      reads this
    {
      M.Valid(State())
    }

    /**
     * Mount: authentication is taken from the stored flag, no user is known,
     * loading is on, and the renewal effect installs the interval when the
     * flag said "true".
     */
    constructor (stored: M.Option<string>)
      ensures Valid()
      ensures State() == M.Initial(stored)
      ensures requests == 0
    {
      user := M.None;
      isAuthenticated := stored == M.Some(M.AuthFlag);
      loading := true;
      hasCheckedAuth := false;
      storedFlag := stored;
      renewalActive := stored == M.Some(M.AuthFlag);
      requests := 0;
    }

    /** The renewal effect, re-run after a transition: the interval runs exactly while authenticated. */
    method SyncRenewal()
      modifies this`renewalActive
      ensures renewalActive == isAuthenticated
    {
      renewalActive := isAuthenticated;
    }

    /**
     * Drop authentication and the identity, as the bootstrap does when it skips
     * the check (flag kept) and after every failed refresh (flag removed).
     */
    method SignOut(removeFlag: bool)
      modifies this`isAuthenticated, this`user, this`storedFlag
      ensures !isAuthenticated && user == M.None
      ensures storedFlag == if removeFlag then M.None else old(storedFlag)
    {
      isAuthenticated := false;
      user := M.None;
      if removeFlag {
        storedFlag := M.None;
      }
    }

    /**
     * The mount effect and its `checkAuth`, with the outcomes of the two
     * service calls given as parameters.
     */
    method Bootstrap(refresh: M.RefreshOutcome, profile: M.ProfileOutcome)
      requires Valid()
      modifies this
      ensures Valid()
      ensures State() == M.Bootstrap(old(State()), refresh, profile)
      ensures requests == old(requests) + M.BootstrapRequests(old(State()), refresh)
    {
      if hasCheckedAuth {
        return;
      }
      hasCheckedAuth := true;

      var storedAuth := storedFlag;
      if storedAuth != M.Some(M.AuthFlag) {
        SignOut(false);
        loading := false;
        SyncRenewal();
        return;
      }

      requests := requests + 1;
      match refresh {
        case TransportError =>
          SignOut(true);
        case Response(status, body) =>
          if !M.IsOk(status) {
            SignOut(true);
          } else {
            match body {
              case Unparsable =>
                SignOut(true);
              case Json(success) =>
                if success {
                  isAuthenticated := true;
                  storedFlag := M.Some(M.AuthFlag);
                  requests := requests + 1;
                  match profile {
                    case Threw =>
                      isAuthenticated := true;
                      storedFlag := M.Some(M.AuthFlag);
                    case Returned(ok, data) =>
                      if ok {
                        user := data;
                      }
                  }
                } else {
                  SignOut(true);
                }
            }
          }
      }
      loading := false;
      SyncRenewal();
    }

    /** `login(userData)`, published to consumers once loading is over. */
    method Login(u: M.Option<M.User>)
      requires Valid() && !loading
      modifies this
      ensures Valid()
      ensures State() == M.Login(old(State()), u)
      ensures requests == old(requests)
    {
      user := u;
      isAuthenticated := true;
      storedFlag := M.Some(M.AuthFlag);
      SyncRenewal();
    }

    /** `logout()`, published to consumers once loading is over; it sends nothing. */
    method Logout()
      requires Valid() && !loading
      modifies this
      ensures Valid()
      ensures State() == M.Logout(old(State()))
      ensures requests == old(requests)
    {
      user := M.None;
      isAuthenticated := false;
      storedFlag := M.None;
      SyncRenewal();
    }

    /** One tick of the renewal interval: a refresh whose outcome is ignored. */
    method RenewalTick()
      requires Valid() && renewalActive
      modifies this`requests
      ensures Valid()
      ensures State() == old(State())
      ensures requests == old(requests) + 1
    {
      requests := requests + 1;
    }
  }

  /**
   * A client: a double mount with a stored flag sends one refresh and one
   * profile call, a profile call that throws leaves an authenticated session
   * without a user, and login followed by logout leaves no user, no
   * authentication, no flag and no renewal.
   */
  method DoubleMountThenLoginLogout(u: M.User)
  {
    var p := new AuthProvider(M.Some(M.AuthFlag));
    assert p.isAuthenticated && p.loading;
    var ok := M.Response(200, M.Json(true));
    p.Bootstrap(ok, M.Threw);
    p.Bootstrap(ok, M.Threw);
    assert p.requests == 2;
    assert p.isAuthenticated && p.user == M.None && !p.loading;
    p.Login(M.Some(u));
    assert p.user == M.Some(u);
    p.Logout();
    assert !p.isAuthenticated && p.user == M.None && p.storedFlag == M.None && !p.renewalActive;
  }
}
