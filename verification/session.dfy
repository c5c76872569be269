/**
 * The session held by the authentication provider: the logged-in user (if
 * any) and a loading flag, with login, logout and the start-up effect as pure
 * transitions. The network is not modelled: each handler receives the outcome
 * of its API call as an argument and reports which call it made.
 */
module Session {
  import opened Js

  /** The role submitted with the login form. */
  datatype LoginRole = GlobalAdminRole | VerticalLeadRole

  /** The identity installed after a successful login. */
  datatype User =
    | GlobalAdmin(username: string)
    | VerticalHead(name: string, roll_no: string, vertical: string, department: string)

  datatype AuthState = AuthState(user: Option<User>, isLoading: bool)

  /** The `lead` object a vertical-lead login response carries. */
  datatype Lead = Lead(name: string, roll_no: string, vertical: string, department: string)

  /**
   * A response body. `None` in `LoginResponse.data` stands for a falsy body;
   * a global-admin body carries only a message, so its `lead` is `None`.
   */
  datatype LoginBody = LoginBody(lead: Option<Lead>)

  /** What the awaited login call produced: a response, or a thrown error. */
  datatype LoginOutcome =
    | LoginResponse(status: int, data: Option<LoginBody>)
    | LoginThrew

  /** What the awaited logout call did; either way the session ends. */
  datatype LogoutOutcome = LogoutResolved | LogoutThrew

  /** The API calls the provider makes. */
  datatype ApiCall =
    | GlobalAdminLogin(identifier: string, password: string)
    | VerticalLeadLogin(identifier: string, password: string)
    | GlobalAdminLogout
    | VerticalLeadLogout

  datatype LoginStep = LoginStep(session: AuthState, result: bool, call: ApiCall)
  datatype LogoutStep = LogoutStep(session: AuthState, call: ApiCall)

  /** `isAuthenticated`: `!!user`, true exactly when some user is installed. */
  predicate IsAuthenticated(s: AuthState)
    ensures IsAuthenticated(s) <==> exists u :: s.user == Some(u)
  {
    assert s.user.Some? ==> s.user == Some(s.user.value);
    s.user.Some?
  }

  /** The state the provider is created in, before its start-up effect runs. */
  function Initial(): (s: AuthState)
    ensures !IsAuthenticated(s) && s.isLoading
  {
    AuthState(None, true)
  }

  /**
   * The start-up effect: no session probe is made (the server validates its
   * cookie); the loading flag simply resolves.
   */
  function StartupEffect(s: AuthState): (r: AuthState)
    ensures !r.isLoading && r.user == s.user
  {
    s.(isLoading := false)
  }

  /** Once mounted, there is no user and nothing is loading. */
  lemma StartupResolvesUnauthenticated()
    ensures var s := StartupEffect(Initial()); !IsAuthenticated(s) && !s.isLoading
  {
  }

  /** The first half of `login`: loading is raised while the call is in flight. */
  function LoginBegin(s: AuthState): (p: AuthState)
    ensures p.isLoading && p.user == s.user
  {
    s.(isLoading := true)
  }

  /** The login endpoint the role selects; any role but global admin goes to the vertical-lead API. */
  function LoginCall(role: LoginRole, identifier: string, password: string): (c: ApiCall)
    ensures c.GlobalAdminLogin? <==> role == GlobalAdminRole
    ensures (c.GlobalAdminLogin? || c.VerticalLeadLogin?) && c.identifier == identifier && c.password == password
  {
    if role == GlobalAdminRole then GlobalAdminLogin(identifier, password)
    else VerticalLeadLogin(identifier, password)
  }

  /** `response.status === 200 && response.data`: a status-200 response with a truthy body. */
  predicate Accepted(outcome: LoginOutcome)
    ensures Accepted(outcome) <==> exists body :: outcome == LoginResponse(200, Some(body))
    ensures Accepted(outcome) ==> !outcome.LoginThrew?
  {
    assert outcome.LoginResponse? && outcome.data.Some? ==>
           outcome == LoginResponse(outcome.status, Some(outcome.data.value));
    outcome.LoginResponse? && outcome.status == 200 && outcome.data.Some?
  }

  /**
   * The second half of `login`: inspect the outcome, maybe install a user,
   * and clear loading in the `finally` step.
   */
  function LoginEnd(p: AuthState, role: LoginRole, identifier: string, password: string,
                    outcome: LoginOutcome): (r: LoginStep)
    ensures !r.session.isLoading
    ensures r.result <==> Accepted(outcome)
    ensures r.session.user != p.user ==> r.result
  {
    var call := LoginCall(role, identifier, password);
    if Accepted(outcome) then
      var user :=
        if role == GlobalAdminRole then Some(GlobalAdmin(identifier))
        else match outcome.data.value.lead
          case Some(l) => Some(VerticalHead(l.name, l.roll_no, l.vertical, l.department))
          case None => p.user;
      LoginStep(AuthState(user, false), true, call)
    else
      LoginStep(p.(isLoading := false), false, call)
  }

  /** `login(formData)`: one atomic call of the handler. */
  function Login(s: AuthState, role: LoginRole, identifier: string, password: string,
                 outcome: LoginOutcome): (r: LoginStep)
    ensures !r.session.isLoading
    ensures r.call == LoginCall(role, identifier, password)
  {
    LoginEnd(LoginBegin(s), role, identifier, password, outcome)
  }

  /** A global-admin login that is accepted installs the submitted identifier as the username. */
  lemma GlobalAdminLoginInstallsIdentifier(s: AuthState, identifier: string, password: string,
                                           outcome: LoginOutcome)
    requires Accepted(outcome)
    ensures var r := Login(s, GlobalAdminRole, identifier, password, outcome);
            r.result && r.session.user == Some(GlobalAdmin(identifier)) && IsAuthenticated(r.session)
  {
  }

  /** An accepted vertical-lead login whose body has a `lead` copies its four fields. */
  lemma VerticalLeadLoginCopiesLead(s: AuthState, identifier: string, password: string,
                                    status: int, lead: Lead)
    requires status == 200
    ensures var r := Login(s, VerticalLeadRole, identifier, password,
                           LoginResponse(status, Some(LoginBody(Some(lead)))));
            && r.result
            && r.session.user == Some(VerticalHead(lead.name, lead.roll_no, lead.vertical, lead.department))
  {
  }

  /**
   * An accepted vertical-lead login whose body has no `lead` still reports
   * success, but installs nobody: the user is whatever it was before.
   */
  lemma VerticalLeadLoginWithoutLead(s: AuthState, identifier: string, password: string)
    ensures var r := Login(s, VerticalLeadRole, identifier, password,
                           LoginResponse(200, Some(LoginBody(None))));
            r.result && r.session.user == s.user
  {
  }

  /** So `true` from `login` does not mean someone is logged in. */
  lemma LoginTrueWithoutAuthentication()
    ensures var r := Login(StartupEffect(Initial()), VerticalLeadRole, "22z101", "pw",
                           LoginResponse(200, Some(LoginBody(None))));
            r.result && !IsAuthenticated(r.session)
  {
  }

  /** A rejected status, a falsy body or a thrown error: `false`, and the user is untouched. */
  lemma LoginFailureKeepsUser(s: AuthState, role: LoginRole, identifier: string, password: string,
                              outcome: LoginOutcome)
    requires !outcome.LoginResponse? || outcome.status != 200 || outcome.data.None?
    ensures var r := Login(s, role, identifier, password, outcome);
            !r.result && r.session == s.(isLoading := false)
  {
  }

  /**
   * After a login someone is authenticated exactly when someone already was,
   * or the login was accepted and named a user: a global admin, or a vertical
   * lead whose body carried `lead`.
   */
  lemma LoginAuthenticatesIff(s: AuthState, role: LoginRole, identifier: string, password: string,
                              outcome: LoginOutcome)
    ensures var r := Login(s, role, identifier, password, outcome);
            IsAuthenticated(r.session) <==>
              || IsAuthenticated(s)
              || (Accepted(outcome) && (role == GlobalAdminRole || outcome.data.value.lead.Some?))
  {
  }

  /** `logout()`: the endpoint follows the current user's role; the session always ends. */
  function Logout(s: AuthState, outcome: LogoutOutcome): (r: LogoutStep)
    ensures !IsAuthenticated(r.session) && !r.session.isLoading
    ensures r.call == GlobalAdminLogout <==> s.user.Some? && s.user.value.GlobalAdmin?
    ensures r.call == GlobalAdminLogout || r.call == VerticalLeadLogout
  {
    var call := if s.user.Some? && s.user.value.GlobalAdmin? then GlobalAdminLogout else VerticalLeadLogout;
    // whether the call resolved or threw, the `finally` step clears the session
    LogoutStep(AuthState(None, false), call)
  }

  /** With nobody logged in, logout still calls the vertical-lead endpoint. */
  lemma LogoutWithoutUserUsesVerticalLead(s: AuthState, outcome: LogoutOutcome)
    requires !IsAuthenticated(s)
    ensures Logout(s, outcome).call == VerticalLeadLogout
  {
  }

  /** One handler call on the provider. */
  datatype Event =
    | Startup
    | LoginEvent(role: LoginRole, identifier: string, password: string, outcome: LoginOutcome)
    | LogoutEvent(logoutOutcome: LogoutOutcome)

  function Apply(s: AuthState, e: Event): AuthState {
    match e
    case Startup => StartupEffect(s)
    case LoginEvent(role, id, pw, o) => Login(s, role, id, pw, o).session
    case LogoutEvent(o) => Logout(s, o).session
  }

  /** The session after a sequence of handler calls, each run to completion. */
  function Run(s: AuthState, events: seq<Event>): AuthState
    decreases |events|
  {
    if events == [] then s else Apply(Run(s, events[..|events| - 1]), events[|events| - 1])
  }

  /** Event `e` is an accepted login that names user `u`, independently of how `Login` builds it. */
  predicate Installs(e: Event, u: User) {
    && e.LoginEvent?
    && Accepted(e.outcome)
    && match u
       case GlobalAdmin(name) =>
         e.role == GlobalAdminRole && e.identifier == name
       case VerticalHead(name, roll_no, vertical, department) =>
         e.role == VerticalLeadRole && e.outcome.data.value.lead == Some(Lead(name, roll_no, vertical, department))
  }

  /** Event `i` of `events` installed `u` and no logout followed it. */
  ghost predicate InstalledAndKept(events: seq<Event>, u: User, i: int) {
    && 0 <= i < |events|
    && Installs(events[i], u)
    && forall j :: i < j < |events| ==> !events[j].LogoutEvent?
  }

  /** Appending an event other than a logout keeps an earlier installation standing. */
  lemma KeptAfterAppend(prefix: seq<Event>, last: Event, u: User, i: int)
    requires InstalledAndKept(prefix, u, i) && !last.LogoutEvent?
    ensures InstalledAndKept(prefix + [last], u, i)
  {
    var events := prefix + [last];
    forall j | i < j < |events|
      ensures !events[j].LogoutEvent?
    {
      if j < |prefix| {
        assert events[j] == prefix[j];
      }
    }
  }

  /**
   * Whoever is logged in after a run from the mounted provider was named by
   * an accepted login in that run, and no logout came after it.
   */
  lemma {:induction false} RunUserProvenance(events: seq<Event>, u: User)
    requires Run(StartupEffect(Initial()), events).user == Some(u)
    ensures exists i :: InstalledAndKept(events, u, i)
    decreases |events|
  {
    var s0 := StartupEffect(Initial());
    if events == [] {
      assert false;
    } else {
      var n := |events| - 1;
      var prefix := events[..n];
      var last := events[n];
      assert events == prefix + [last];
      var before := Run(s0, prefix);
      assert Run(s0, events) == Apply(before, last);
      if last.LogoutEvent? {
        assert false;
      } else if before.user == Some(u) {
        RunUserProvenance(prefix, u);
        var i :| InstalledAndKept(prefix, u, i);
        KeptAfterAppend(prefix, last, u, i);
      } else {
        assert last.LoginEvent?;
        assert InstalledAndKept(events, u, n);
      }
    }
  }
}
