/** The role checks the screens make on the `role` prop (absent when no user is
    logged in). Some compare the stored text exactly, others after `toLowerCase()`. */
module Roles {
  import opened Common
  import opened Text

  /** `role === "Admin" || role === "Accountant"`: may change money records. */
  predicate CanEditAccounts(role: Option<string>) {
    role == Some("Admin") || role == Some("Accountant")
  }

  /** `role === "Admin" || role === "Manager"`: sees every employee's ledger. */
  predicate IsBoss(role: Option<string>) {
    role == Some("Admin") || role == Some("Manager")
  }

  /** `role?.toLowerCase()`; an absent role stays absent. */
  function LoweredRole(role: Option<string>): (r: Option<string>)
    ensures r.Some? <==> role.Some?
    ensures r.Some? ==> |r.value| == |role.value|
  {
    match role
    case None => None
    case Some(s) => Some(Lower(s))
  }

  /** The attendance screen: admin, accountant or manager in any letter case. */
  predicate CanMarkAttendance(role: Option<string>) {
    var r := LoweredRole(role);
    r == Some("admin") || r == Some("accountant") || r == Some("manager")
  }

  /** The expense screen: admin or accountant in any letter case. */
  predicate CanManageExpenses(role: Option<string>) {
    var r := LoweredRole(role);
    r == Some("admin") || r == Some("accountant")
  }

  /** Lower-casing a role spelt with an upper-case initial. */
  lemma LowerRoleNames()
    ensures Lower("Admin") == "admin" && Lower("Accountant") == "accountant" && Lower("Manager") == "manager"
    ensures Lower("Worker") == "worker"
  {
    assert Lower("Admin") == ['a', 'd', 'm', 'i', 'n'];
    assert Lower("Accountant") == ['a', 'c', 'c', 'o', 'u', 'n', 't', 'a', 'n', 't'];
    assert Lower("Manager") == ['m', 'a', 'n', 'a', 'g', 'e', 'r'];
    assert Lower("Worker") == ['w', 'o', 'r', 'k', 'e', 'r'];
  }

  /** Whoever may edit accounts under the exact comparison also passes the case-insensitive
      expense and attendance checks. */
  lemma ExactRolesPassLoweredChecks(role: Option<string>)
    requires CanEditAccounts(role)
    ensures CanManageExpenses(role) && CanMarkAttendance(role)
  {
    LowerRoleNames();
  }

  /** The exact comparison refuses spellings that the lowered one accepts. */
  lemma CaseMatters()
    ensures CanManageExpenses(Some("admin")) && !CanEditAccounts(Some("admin"))
  {
    assert Lower("admin") == ['a', 'd', 'm', 'i', 'n'];
  }
}
