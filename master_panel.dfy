/** The master admin panel: the staff cards with their search, the password reset, the
    role and access updates, and the latest actions. */
module MasterPanel {
  import opened Common
  import opened Text
  import opened Ledger
  import Server

  datatype Staff = Staff(name: Option<string>, empId: JsId, role: Option<string>, isBlocked: int)

  datatype LogLine = LogLine(adminName: Option<string>, actionDetail: string, createdAt: string)

  /** The card search: a lower-cased name against the lower-cased term, or the id's text
      against the term as typed. */
  predicate Matches(u: Staff, search: string) {
    LowerContains(u.name, Lower(search)) || IdContains(u.empId, search)
  }

  function Filtered(users: seq<Staff>, search: string): (r: seq<Staff>)
    ensures forall u :: u in r <==> u in users && Matches(u, search)
    ensures IsSubseq(r, users)
  {
    Filter(users, u => Matches(u, search))
  }

  /** `logs.slice(0, 15)` */
  function ShownLogs(logs: seq<LogLine>): (r: seq<LogLine>)
    ensures |r| <= 15 && |r| <= |logs| && r == logs[..|r|]
    ensures |logs| <= 15 ==> r == logs
  {
    Server.Take(logs, 15)
  }

  /** The `prompt` answer is usable: not cancelled, and at least four characters. */
  predicate PasswordAccepted(newPass: Option<string>)
    ensures PasswordAccepted(newPass) <==> newPass.Some? && |newPass.value| >= 4
  {
    !(newPass.None? || newPass.value == "" || |newPass.value| < 4)
  }

  datatype ResetRequest = ResetRequest(empId: JsId, newPass: string, adminName: Option<string>)

  /** What `handleSystemUpdate` sends. */
  datatype UpdateRequest = UpdateRequest(empId: JsId, field: string, value: Server.Value, adminName: Option<string>, targetName: Option<string>)

  /** The access toggle asks for the opposite of the shown state. */
  function ToggleRequest(emp: Staff, adminName: Option<string>): (r: UpdateRequest)
    ensures r.field == "isBlocked" && r.value == Server.Flag(emp.isBlocked == 0)
    ensures r.empId == emp.empId && r.targetName == emp.name && r.adminName == adminName
  {
    UpdateRequest(emp.empId, "isBlocked", Server.Flag(!(emp.isBlocked != 0)), adminName, emp.name)
  }

  /** The role selector sends the chosen role. */
  function RoleRequest(emp: Staff, role: string, adminName: Option<string>): (r: UpdateRequest)
    ensures r.field == "role" && r.value == Server.Text(role)
    ensures r.empId == emp.empId && r.targetName == emp.name && r.adminName == adminName
  {
    UpdateRequest(emp.empId, "role", Server.Text(role), adminName, emp.name)
  }

  /** Toggling twice asks for the state the card started in: a blocked card asks to be
      restored, an unblocked one to be blocked. */
  lemma ToggleFlips(emp: Staff, adminName: Option<string>)
    ensures ToggleRequest(emp, adminName).value == Server.Flag(true) <==> emp.isBlocked == 0
    ensures ToggleRequest(emp.(isBlocked := if emp.isBlocked == 0 then 1 else 0), adminName).value
      == Server.Flag(emp.isBlocked != 0)
  {
  }

  datatype Snack = Snack(message: string, severity: string)

  /** How the password reset ended: saved, refused with an optional message, or failed. */
  datatype ResetOutcome = ResetDone | ResetRefused(message: Option<string>) | ResetFailed

  /** Both lists of the panel, as one `Promise.all`; `None` if either request fails. */
  datatype PanelData = PanelData(users: seq<Staff>, logs: seq<LogLine>)

  class Panel {
    var users: seq<Staff>
    var logs: seq<LogLine>
    var search: string
    var snack: Option<Snack>

    constructor ()
      ensures users == [] && logs == [] && search == "" && snack.None?
    {
      users, logs, search, snack := [], [], "", None;
    }

    /** `fetchData`: both lists are replaced together, or neither. */
    method FetchData(response: Option<PanelData>)
      modifies this`users, this`logs, this`snack
      ensures response.Some? ==> users == response.value.users && logs == response.value.logs && snack == old(snack)
      ensures response.None? ==> users == old(users) && logs == old(logs)
      ensures response.None? ==> snack == Some(Snack("\U{274C} Failed to fetch users/logs", "error"))
    {
      if response.Some? {
        users := response.value.users;
        logs := response.value.logs;
      } else {
        snack := Some(Snack("\U{274C} Failed to fetch users/logs", "error"));
      }
    }

    /** `handlePasswordReset`: a cancelled or short answer sends nothing. */
    method HandlePasswordReset(empId: JsId, newPass: Option<string>, adminName: Option<string>,
                               outcome: ResetOutcome, reload: Option<PanelData>)
      returns (request: Option<ResetRequest>)
      modifies this`users, this`logs, this`snack
      ensures !PasswordAccepted(newPass) ==> request.None? && users == old(users) && logs == old(logs)
      ensures !PasswordAccepted(newPass) ==> snack == Some(Snack("\U{274C} Password must be 4+ characters", "error"))
      ensures PasswordAccepted(newPass) ==> request == Some(ResetRequest(empId, newPass.value, adminName))
      ensures PasswordAccepted(newPass) && outcome.ResetDone? && reload.Some? ==> users == reload.value.users
      ensures PasswordAccepted(newPass) && !outcome.ResetDone? ==> users == old(users) && logs == old(logs)
      ensures PasswordAccepted(newPass) && outcome.ResetRefused? ==>
        snack == Some(Snack(if outcome.message.Some? && outcome.message.value != "" then outcome.message.value else "Failed!", "error"))
    {
      if !PasswordAccepted(newPass) {
        snack := Some(Snack("\U{274C} Password must be 4+ characters", "error"));
        return None;
      }
      request := Some(ResetRequest(empId, newPass.value, adminName));
      match outcome {
        case ResetDone =>
          snack := Some(Snack("\U{1F511} Password updated!", "success"));
          FetchData(reload);
        case ResetRefused(message) =>
          snack := Some(Snack(if message.Some? && message.value != "" then message.value else "Failed!", "error"));
        case ResetFailed =>
          snack := Some(Snack("\U{274C} Password reset failed! Check server.", "error"));
      }
    }

    /** `handleSystemUpdate`: the request goes out as given; a success reloads the panel. */
    method HandleSystemUpdate(req: UpdateRequest, ok: bool, reload: Option<PanelData>)
      returns (request: UpdateRequest)
      modifies this`users, this`logs, this`snack
      ensures request == req
      ensures ok && reload.Some? ==> users == reload.value.users && logs == reload.value.logs
      ensures !ok ==> users == old(users) && logs == old(logs) && snack == Some(Snack("\U{274C} Update Failed", "error"))
    {
      request := req;
      if ok {
        snack := Some(Snack("\U{2699}\U{FE0F} User Updated Successfully!", "success"));
        FetchData(reload);
      } else {
        snack := Some(Snack("\U{274C} Update Failed", "error"));
      }
    }
  }
}
