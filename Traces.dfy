/**
 * Runs of the provider under the single-threaded event loop: the mount
 * effect (which a development-mode double mount fires twice), calls of the
 * published `login` and `logout`, and ticks of the renewal interval, applied
 * one at a time in any order.
 */
module SessionTraces {
  import opened SessionModel

  datatype Event =
    | MountEffect(refresh: RefreshOutcome, profile: ProfileOutcome)
    | CallLogin(u: Option<User>)
    | CallLogout
    | RenewalTick

  /**
   * One event. `login` and `logout` reach consumers only once loading is over,
   * so a call while loading is never issued and leaves the state alone; a
   * renewal tick fires a request and changes nothing.
   */
  function Step(s: Session, e: Event): (r: Session)
    requires Valid(s)
    ensures Valid(r)
    ensures s.hasCheckedAuth ==> r.hasCheckedAuth
    ensures s.loading && !e.MountEffect? ==> r == s
  {
    match e
    case MountEffect(refresh, profile) => Bootstrap(s, refresh, profile)
    case CallLogin(u) => if s.loading then s else Login(s, u)
    case CallLogout => if s.loading then s else Logout(s)
    case RenewalTick => s
  }

  /** The state after a sequence of events. */
  function Run(s: Session, es: seq<Event>): (r: Session)
    requires Valid(s)
    ensures Valid(r)
    ensures s.hasCheckedAuth ==> r.hasCheckedAuth && !r.loading
    decreases |es|
  {
    if es == [] then s else Run(Step(s, es[0]), es[1..])
  }

  /** Requests sent by the bootstrap over a sequence of events. */
  function BootstrapRequestsOf(s: Session, es: seq<Event>): nat
    requires Valid(s)
    decreases |es|
  {
    if es == [] then 0
    else
      var here := if es[0].MountEffect? then BootstrapRequests(s, es[0].refresh) else 0;
      here + BootstrapRequestsOf(Step(s, es[0]), es[1..])
  }

  /** Requests sent by the renewal interval over a sequence of events. */
  function RenewalRequestsOf(s: Session, es: seq<Event>): nat
    requires Valid(s)
    decreases |es|
  {
    if es == [] then 0
    else
      var here := if es[0].RenewalTick? && s.renewalActive then 1 else 0;
      here + RenewalRequestsOf(Step(s, es[0]), es[1..])
  }

  /** Once the latch is set, no further mount sends a request. */
  lemma {:induction false} CheckedSendsNoBootstrapRequests(s: Session, es: seq<Event>)
    requires Valid(s) && s.hasCheckedAuth
    ensures BootstrapRequestsOf(s, es) == 0
    decreases |es|
  {
    if es != [] {
      CheckedSendsNoBootstrapRequests(Step(s, es[0]), es[1..]);
    }
  }

  /**
   * The bootstrap runs at most once however often the mount effect fires:
   * all events together send at most the refresh and the profile call, and
   * none at all while the stored flag at mount is not "true".
   */
  lemma {:induction false} BootstrapRunsAtMostOnce(s: Session, es: seq<Event>)
    requires Valid(s)
    ensures BootstrapRequestsOf(s, es) <= 2
    ensures !s.hasCheckedAuth && s.storedFlag != Some(AuthFlag) ==> BootstrapRequestsOf(s, es) == 0
    decreases |es|
  {
    if es == [] {
    } else if s.hasCheckedAuth {
      CheckedSendsNoBootstrapRequests(s, es);
    } else if es[0].MountEffect? {
      CheckedSendsNoBootstrapRequests(Step(s, es[0]), es[1..]);
    } else {
      BootstrapRunsAtMostOnce(Step(s, es[0]), es[1..]);
    }
  }

  /**
   * Signed out, the renewal interval stays cancelled until the next login:
   * no event sequence without a login sends a renewal request or
   * authenticates the session.
   */
  lemma {:induction false} NoRenewalUntilLogin(s: Session, es: seq<Event>)
    requires Valid(s) && !s.isAuthenticated
    requires forall i :: 0 <= i < |es| ==> !es[i].CallLogin?
    ensures RenewalRequestsOf(s, es) == 0
    ensures !Run(s, es).isAuthenticated
    decreases |es|
  {
    if es != [] {
      NoRenewalUntilLogin(Step(s, es[0]), es[1..]);
    }
  }

  /** After `logout()`, renewal sends nothing until someone logs in again. */
  lemma LogoutCancelsRenewal(s: Session, es: seq<Event>)
    requires Valid(s) && !s.loading
    requires forall i :: 0 <= i < |es| ==> !es[i].CallLogin?
    ensures RenewalRequestsOf(Logout(s), es) == 0
  {
    NoRenewalUntilLogin(Logout(s), es);
  }

  /** `n` ticks of the renewal interval. */
  function Ticks(n: nat): (es: seq<Event>)
    ensures |es| == n
    ensures forall i :: 0 <= i < n ==> es[i] == RenewalTick
  {
    seq(n, _ => RenewalTick)
  }

  /** While authenticated, each tick sends exactly one refresh and leaves the session as it was. */
  lemma {:induction false} TicksWhileAuthenticated(s: Session, n: nat)
    requires Valid(s) && s.isAuthenticated
    ensures RenewalRequestsOf(s, Ticks(n)) == n
    ensures Run(s, Ticks(n)) == s
  {
    if n > 0 {
      assert Ticks(n)[1..] == Ticks(n - 1);
      TicksWhileAuthenticated(s, n - 1);
    }
  }
}
