/** The navigation bar's session watchdog: every 30 seconds it asks the server for
    the employee's active session token and blocked flag, and logs the browser out
    when another device has taken over the session or the account is blocked. */
module Navbar {
  import opened Common
  import opened App
  import Server

  const PollIntervalMs: nat := 30000

  const TakenOverAlert: string := "\U{26A0}\U{FE0F} This ID was logged in on another device."
  const BlockedAlert: string := "\U{1F6AB} Your account has been blocked by Admin."

  /** `!user?.id || !user?.currentSessionId` skips the checker: polling needs both. */
  predicate Polls(user: Option<User>) {
    user.Some? && user.value.id.Some? && user.value.id.value != 0 && Present(user.value.currentSessionId)
  }

  /** `activeSessionId && activeSessionId !== user.currentSessionId`: an empty or null
      server token never counts as a takeover. */
  predicate TakenOver(local: Option<string>, info: Server.SessionInfo) {
    Present(info.activeSessionId) && info.activeSessionId != local
  }

  /** The alerts one poll raises, in order; each one forces a logout. Both checks run,
      so a blocked account whose session was also taken over sees two alerts. */
  function PollAlerts(user: Option<User>, response: Option<Server.SessionInfo>): (r: seq<string>)
    ensures !Polls(user) || response.None? ==> r == []
    ensures Polls(user) && response.Some? ==>
      (TakenOverAlert in r <==> TakenOver(user.value.currentSessionId, response.value))
      && (BlockedAlert in r <==> response.value.isBlocked)
    ensures |r| <= 2
  {
    if !Polls(user) || response.None? then []
    else
      (if TakenOver(user.value.currentSessionId, response.value) then [TakenOverAlert] else [])
      + (if response.value.isBlocked then [BlockedAlert] else [])
  }

  class NavBar {
    const shell: Shell
    var showSidebar: bool

    constructor (shell: Shell)
      ensures this.shell == shell && !showSidebar
    {
      this.shell := shell;
      showSidebar := false;
    }

    /** `forceLogout`: drop the stored user, clear the user, close the sidebar and go
        to /login. */
    method ForceLogout()
      modifies this`showSidebar, shell`stored, shell`user, shell`location, shell`timerArmed, shell`idleMs
      ensures shell.Valid()
      ensures shell.stored.None? && shell.user.None? && shell.location == "/login" && !showSidebar
    {
      shell.stored := None;
      shell.SetUser(None);
      showSidebar := false;
      shell.location := "/login";
    }

    /** One run of `checkSessionStatus`; `None` is a failed request, which is only
        logged (the check fails open). */
    method Poll(response: Option<Server.SessionInfo>) returns (alerts: seq<string>)
      requires shell.Valid()
      modifies this`showSidebar, shell`stored, shell`user, shell`location, shell`timerArmed, shell`idleMs
      ensures shell.Valid()
      ensures alerts == PollAlerts(old(shell.user), response)
      ensures alerts != [] ==> shell.stored.None? && shell.user.None? && shell.location == "/login" && !showSidebar
      ensures alerts == [] ==> shell.stored == old(shell.stored) && shell.user == old(shell.user)
      ensures alerts == [] ==> shell.location == old(shell.location) && showSidebar == old(showSidebar)
    {
      alerts := [];
      if !Polls(shell.user) || response.None? {
        return;
      }
      var local := shell.user.value.currentSessionId;
      if TakenOver(local, response.value) {
        alerts := alerts + [TakenOverAlert];
        ForceLogout();
      }
      if response.value.isBlocked {
        alerts := alerts + [BlockedAlert];
        ForceLogout();
      }
    }
  }

  /** The watchdog against the server: a browser holding the token of an earlier login
      is logged out at its next poll once the same employee logs in again elsewhere. */
  lemma SecondLoginEvictsFirst(emps: seq<Server.Employee>, username: string, password: string,
                               token: string, first: User)
    requires Server.UniqueIds(emps) && token != ""
    requires Server.LoginTransition(emps, username, password, token).result.LoggedIn?
    requires first.id == Some(Server.LoginTransition(emps, username, password, token).result.user.id)
    requires first.id.value != 0 && Present(first.currentSessionId) && first.currentSessionId != Some(token)
    ensures var step := Server.LoginTransition(emps, username, password, token);
      TakenOverAlert in PollAlerts(Some(first), Server.SessionLookup(step.employees, first.id.value))
  {
    var step := Server.LoginTransition(emps, username, password, token);
    Server.LoginReplacesSession(emps, username, password, token, first.currentSessionId.value);
  }

  /** The browser that made the latest login keeps its session while the account is
      not blocked. */
  lemma LatestLoginSurvives(emps: seq<Server.Employee>, username: string, password: string, token: string, now: string)
    requires Server.UniqueIds(emps) && token != ""
    requires Server.LoginTransition(emps, username, password, token).result.LoggedIn?
    ensures var step := Server.LoginTransition(emps, username, password, token);
      var me := UserOf(step.result.user, now);
      var info := Server.SessionLookup(step.employees, step.result.user.id);
      info.Some? && !info.value.isBlocked ==> PollAlerts(Some(me), info) == []
  {
    var step := Server.LoginTransition(emps, username, password, token);
    Server.LoginReplacesSession(emps, username, password, token, token + "x");
  }
}
