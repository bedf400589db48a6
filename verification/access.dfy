/** Access decisions on the client: which portal admits which account, the
    guard in front of every protected page, and the signed-in session. */
module Access {
  import opened Types

  /** What a portal's login form does with the reply of the login request. */
  datatype Admission =
    | InvalidCredentials   // "Invalid credentials or account disabled"
    | InvalidRole          // "Invalid role access"
    | NetworkFailure       // "Login failed or network error"
    | Admitted(user: User, redirectPath: string)

  /** The login form of the portal for `portal`. `reply` is the login
      request's outcome: a user, no user, or a failed request. */
  function Admit(reply: Result<Option<User>, string>, portal: Role, redirectPath: string): (r: Admission)
    ensures r == NetworkFailure <==> reply.Err?
    ensures r == InvalidCredentials <==> reply == Ok(None)
    ensures r == InvalidRole <==>
      reply.Ok? && reply.value.Some? && portal != MASTER && reply.value.value.role != portal
    ensures r.Admitted? <==>
      reply.Ok? && reply.value.Some? && (portal == MASTER || reply.value.value.role == portal)
    ensures r.Admitted? ==> reply == Ok(Some(r.user)) && r.redirectPath == redirectPath
  {
    match reply
    case Err(_) => NetworkFailure
    case Ok(None) => InvalidCredentials
    case Ok(Some(user)) =>
      if portal != MASTER && user.role != portal then InvalidRole
      else Admitted(user, redirectPath)
  }

  /** The master portal admits an account of any role. */
  lemma MasterPortalAdmitsAnyRole(user: User, redirectPath: string)
    ensures Admit(Ok(Some(user)), MASTER, redirectPath) == Admitted(user, redirectPath)
  {
  }

  // ---------------------------------------------------------------------------
  // Route guard
  // ---------------------------------------------------------------------------

  datatype GuardView = Spinner | RedirectHome | Children

  /** `ProtectedRoute`: a spinner while the session is being restored, a
      redirect to "/" without a user of one of `roles`, the page otherwise. */
  function Guard(isLoading: bool, user: Option<User>, roles: seq<Role>): (r: GuardView)
    ensures r == Spinner <==> isLoading
    ensures r == Children <==> !isLoading && user.Some? && user.value.role in roles
    ensures r == RedirectHome <==> !isLoading && (user.None? || user.value.role !in roles)
  {
    if isLoading then Spinner
    else if user.None? || user.value.role !in roles then RedirectHome
    else Children
  }

  /** The landing page of each portal and the roles its route lets in. */
  function Dashboard(portal: Role): string {
    match portal
    case MASTER => "/master/dashboard"
    case ADMIN => "/admin/dashboard"
    case VOTER => "/voter/dashboard"
  }

  function DashboardRoles(portal: Role): seq<Role> {
    [portal]
  }

  /** A user admitted through a portal reaches that portal's dashboard
      exactly when their role is the portal's; an admin or voter signing in
      through the master portal is admitted, then sent back to "/". */
  lemma {:induction false} AdmittedReachesDashboard(user: User, portal: Role)
    requires Admit(Ok(Some(user)), portal, Dashboard(portal)).Admitted?
    ensures Guard(false, Some(user), DashboardRoles(portal)) == Children <==> user.role == portal
    ensures portal != MASTER ==> Guard(false, Some(user), DashboardRoles(portal)) == Children
  {
    assert user.role in DashboardRoles(portal) <==> user.role == portal;
  }

  // ---------------------------------------------------------------------------
  // Session
  // ---------------------------------------------------------------------------

  /** `AuthProvider`: the signed-in user and whether the stored session is
      still being restored. */
  class Session {
    var user: Option<User>
    var isLoading: bool

    constructor()
      ensures user == None && isLoading
    {
      user := None;
      isLoading := true;
    }

    /** The start-up effect; `stored` is the session kept by the browser, if any. */
    method Restore(stored: Option<User>)
      modifies this
      ensures user == (if stored.Some? then stored else old(user))
      ensures !isLoading
    {
      if stored.Some? {
        user := stored;
      }
      isLoading := false;
    }

    method Login(u: User)
      modifies this`user
      ensures user == Some(u)
    {
      user := Some(u);
    }

    method Logout()
      modifies this`user
      ensures user == None
    {
      user := None;
    }

    function View(roles: seq<Role>): GuardView
      reads this
    {
      Guard(isLoading, user, roles)
    }

    /** The login form's submit handler: an admitted user is signed in, any
        other outcome leaves the session as it was. */
    method SubmitLogin(reply: Result<Option<User>, string>, portal: Role, redirectPath: string)
      returns (outcome: Admission)
      modifies this`user
      ensures outcome == Admit(reply, portal, redirectPath)
      ensures outcome.Admitted? ==> user == Some(outcome.user)
      ensures !outcome.Admitted? ==> user == old(user)
    {
      outcome := Admit(reply, portal, redirectPath);
      if outcome.Admitted? {
        Login(outcome.user);
      }
    }
  }
}
