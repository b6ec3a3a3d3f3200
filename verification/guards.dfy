/** The four route guards. Each reads the `roleId` entry of local storage
    (null when absent) and either lets the navigation through or sends the
    user to the dashboard. */
module Guards {
  import opened Wrappers

  datatype Guard = OwnerGuard | ManagerGuard | UserGuard | AuditorGuard

  /** Where a refused navigation is redirected. */
  const Dashboard := "/dashboard"

  /** canActivate's answer, and the navigation it starts on refusal. */
  datatype Decision = Decision(allowed: bool, navigate: Option<string>)

  /** canActivate: a strict comparison of the stored role with the role
      codes each guard admits. */
  function CanActivate(g: Guard, roleId: Option<string>): (d: Decision)
    ensures d.allowed <==> d.navigate.None?
    ensures !d.allowed ==> d.navigate == Some(Dashboard)
    ensures roleId.None? ==> !d.allowed
  {
    var ok := match g
      case OwnerGuard => roleId == Some("1")
      case ManagerGuard => roleId == Some("3") || roleId == Some("1")
      case UserGuard => roleId == Some("1") || roleId == Some("2") || roleId == Some("3")
      case AuditorGuard => roleId == Some("5");
    if ok then Decision(true, None) else Decision(false, Some(Dashboard))
  }

  predicate Accepts(g: Guard, roleId: Option<string>)
  {
    CanActivate(g, roleId).allowed
  }

  /** The role codes each guard admits, one by one. */
  lemma AcceptedRoles(roleId: Option<string>)
    ensures Accepts(OwnerGuard, roleId) <==> roleId == Some("1")
    ensures Accepts(ManagerGuard, roleId) <==> roleId == Some("1") || roleId == Some("3")
    ensures Accepts(UserGuard, roleId) <==> roleId == Some("1") || roleId == Some("2") || roleId == Some("3")
    ensures Accepts(AuditorGuard, roleId) <==> roleId == Some("5")
  {
  }

  /** The owner, manager and user guards form a chain: each admits every
      role the one before it admits. */
  lemma GuardChain(roleId: Option<string>)
    ensures Accepts(OwnerGuard, roleId) ==> Accepts(ManagerGuard, roleId)
    ensures Accepts(ManagerGuard, roleId) ==> Accepts(UserGuard, roleId)
  {
  }

  /** The auditor is admitted by no other guard, and the others' roles by
      no auditor guard. */
  lemma AuditorDisjoint(roleId: Option<string>)
    ensures Accepts(AuditorGuard, roleId) ==>
      !Accepts(OwnerGuard, roleId) && !Accepts(ManagerGuard, roleId) && !Accepts(UserGuard, roleId)
  {
  }

  /** Role "4" and a missing role get through no guard at all. */
  lemma NobodyAdmitted(g: Guard)
    ensures !Accepts(g, Some("4"))
    ensures !Accepts(g, None)
  {
  }
}
