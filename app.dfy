/** The application shell: the logged-in user kept in React state and mirrored in
    `localStorage["user"]`, the route guard, the blocked-status poll, and the idle
    timer that locks the screen after five minutes without input. */
module App {
  import opened Common
  import opened Text
  import opened Roles
  import Server

  /** The user record the client stores: the employee row returned by the server,
      plus the time of login. */
  datatype User = User(
    id: Option<int>,
    username: Option<string>,
    name: Option<string>,
    role: Option<string>,
    password: Option<string>,
    empId: Option<string>,
    currentSessionId: Option<string>,
    loginTime: Option<string>)

  /** `{ ...userData, currentSessionId, loginTime }` built from a server row. */
  function UserOf(e: Server.Employee, loginTime: string): (u: User)
    ensures u.id == Some(e.id) && u.role == Some(e.role) && u.password == Some(e.password)
    ensures u.currentSessionId == e.currentSessionId && u.loginTime == Some(loginTime)
  {
    User(Some(e.id), Some(e.username), Some(e.name), Some(e.role), Some(e.password), None, e.currentSessionId, Some(loginTime))
  }

  // ---------------------------------------------------------------------------
  // ProtectedRoute

  datatype Restriction = Basic | ManagerAllowed | AdminOnly

  datatype RouteDecision = ToLogin | ToHome(alert: string) | Render

  /** `ProtectedRoute`: no user goes to /login; a restriction the lowered role does not
      meet raises an alert and goes to "/"; otherwise the page is rendered. */
  function Guard(user: Option<User>, restriction: Restriction): (r: RouteDecision)
    ensures user.None? <==> r == ToLogin
    ensures user.Some? && restriction == Basic ==> r == Render
    ensures user.Some? && restriction == AdminOnly ==>
      (r == Render <==> LoweredRole(user.value.role) == Some("admin"))
    ensures user.Some? && restriction == ManagerAllowed ==>
      (r == Render <==> LoweredRole(user.value.role) == Some("admin") || LoweredRole(user.value.role) == Some("manager"))
    ensures r.ToHome? ==> r.alert == if restriction == AdminOnly then "\U{26A0}\U{FE0F} Restricted: Admin Access Only." else "\U{26A0}\U{FE0F} Restricted: Management Access Only."
  {
    if user.None? then ToLogin
    else
      var role := LoweredRole(user.value.role);
      var isBoss := role == Some("admin") || role == Some("manager");
      if restriction == AdminOnly && role != Some("admin") then ToHome("\U{26A0}\U{FE0F} Restricted: Admin Access Only.")
      else if restriction == ManagerAllowed && !isBoss then ToHome("\U{26A0}\U{FE0F} Restricted: Management Access Only.")
      else Render
  }

  /** The restriction of each route of the router; `None` for /login and for unknown
      paths, which redirect to "/". */
  function RouteRestriction(path: string): Option<Restriction> {
    if path == "/" || path == "/profile" || path == "/attendance" || path == "/staff-ledger" then Some(Basic)
    else if path == "/profit-loss" || path == "/expenses" || path == "/sales-entry" || path == "/sales-table"
      || path == "/purchase-form" || path == "/purchase-table" || path == "/stock-management"
      || path == "/stock-add" || path == "/employee-table" || path == "/Reports_Printing" then Some(ManagerAllowed)
    else if path == "/master-panel" || path == "/employee-add" then Some(AdminOnly)
    else None
  }

  /** The guard turns an Accountant away from every management route, although the
      sales, stock and expense screens behind them grant an Accountant write access. */
  lemma AccountantLockedOutOfManagement(user: User, path: string)
    requires user.role == Some("Accountant")
    requires RouteRestriction(path) == Some(ManagerAllowed)
    ensures Guard(Some(user), RouteRestriction(path).value).ToHome?
    ensures CanEditAccounts(user.role) && CanManageExpenses(user.role)
  {
    LowerRoleNames();
    ExactRolesPassLoweredChecks(user.role);
  }

  /** An admin, in any letter case, reaches every page. */
  lemma AdminReachesEverything(user: User, restriction: Restriction)
    requires LoweredRole(user.role) == Some("admin")
    ensures Guard(Some(user), restriction) == Render
  {
  }

  /** Restrictions are nested: whoever passes admin-only also passes manager-allowed. */
  lemma RestrictionsNested(user: User)
    ensures Guard(Some(user), AdminOnly) == Render ==> Guard(Some(user), ManagerAllowed) == Render
    ensures Guard(Some(user), ManagerAllowed) == Render ==> Guard(Some(user), Basic) == Render
  {
  }

  // ---------------------------------------------------------------------------
  // The shell

  /** Five minutes of inactivity lock the screen. */
  const LockAfterMs: nat := 300000

  class Shell {
    var user: Option<User>
    /** `localStorage["user"]` */
    var stored: Option<User>
    /** `window.location` */
    var location: string
    var isLocked: bool
    /** Whether the idle `setTimeout` is pending, and how long since it was set. */
    var timerArmed: bool
    var idleMs: nat

    /** A pending timer has not yet reached its deadline. */
    ghost predicate Valid()
      reads this
    {
      timerArmed ==> idleMs < LockAfterMs
    }

    /** `useState(JSON.parse(localStorage.getItem("user")) || null)`, with the idle effect
        started when a user is present. */
    constructor (saved: Option<User>)
      ensures Valid()
      ensures user == saved && stored == saved && !isLocked
      ensures timerArmed == saved.Some? && idleMs == 0
    {
      user, stored, location, isLocked := saved, saved, "/", false;
      timerArmed, idleMs := saved.Some?, 0;
    }

    /** The `[user]` effects re-run: the old timer is cleared and, with a user, a new
        one set. */
    method SetUser(u: Option<User>)
      modifies this`user, this`timerArmed, this`idleMs
      ensures Valid()
      ensures user == u && timerArmed == u.Some? && idleMs == 0
    {
      user := u;
      timerArmed, idleMs := u.Some?, 0;
    }

    /** `logoutUser`: forget the stored user and go to /login. */
    method LogoutUser()
      modifies this`stored, this`user, this`location, this`timerArmed, this`idleMs
      ensures Valid()
      ensures stored.None? && user.None? && location == "/login"
      ensures !timerArmed && idleMs == 0
    {
      stored := None;
      SetUser(None);
      location := "/login";
    }

    /** One `checkUserStatus` poll; `None` is a failed request. Only a response reporting
        the account blocked logs out. */
    method StatusCheck(response: Option<bool>) returns (alerted: bool)
      requires Valid()
      modifies this`stored, this`user, this`location, this`timerArmed, this`idleMs
      ensures Valid()
      ensures alerted <==> old(user).Some? && response == Some(true)
      ensures alerted ==> stored.None? && user.None? && location == "/login"
      ensures !alerted ==> stored == old(stored) && user == old(user) && location == old(location)
      ensures !alerted ==> timerArmed == old(timerArmed) && idleMs == old(idleMs)
    {
      alerted := false;
      if user.Some? && response == Some(true) {
        alerted := true;
        LogoutUser();
      }
    }

    /** A mousedown, mousemove, keypress, scroll or touchstart: `resetTimer`. The
        listeners exist only while a user is logged in. */
    method Activity()
      requires Valid()
      modifies this`timerArmed, this`idleMs
      ensures Valid()
      ensures user.Some? ==> timerArmed && idleMs == 0
      ensures user.None? ==> timerArmed == old(timerArmed) && idleMs == old(idleMs)
    {
      if user.Some? {
        timerArmed, idleMs := true, 0;
      }
    }

    /** `ms` milliseconds pass with no input: the pending timer fires once its five
        minutes are up. */
    method Elapse(ms: nat)
      requires Valid()
      modifies this`timerArmed, this`idleMs, this`isLocked
      ensures Valid()
      ensures isLocked <==> old(isLocked) || (old(timerArmed) && old(idleMs) + ms >= LockAfterMs)
      ensures timerArmed <==> old(timerArmed) && old(idleMs) + ms < LockAfterMs
      ensures timerArmed ==> idleMs == old(idleMs) + ms
      ensures !timerArmed ==> idleMs == old(idleMs)
    {
      if timerArmed {
        if idleMs + ms >= LockAfterMs {
          isLocked := true;
          timerArmed := false;
        } else {
          idleMs := idleMs + ms;
        }
      }
    }

    /** `isLocked && user && <ScreenLock/>` */
    predicate ShowsLock()
      reads this
    {
      isLocked && user.Some?
    }
  }
}
