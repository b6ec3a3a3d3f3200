/** The administrator section's child routes and the guard on each. */
module Routes {
  import opened Wrappers
  import opened Guards

  datatype Route = Route(path: string, guard: Guard)

  /** administratorRoutes, in declaration order. */
  const AdminRoutes := [
    Route("income-categories", OwnerGuard),
    Route("expense-categories", OwnerGuard),
    Route("users", OwnerGuard),
    Route("incomes", ManagerGuard),
    Route("expenses", ManagerGuard),
    Route("user-expenses", UserGuard)
  ]

  /** The guard of the first route with this path, if any. */
  function GuardOf(routes: seq<Route>, path: string): (g: Option<Guard>)
    ensures g.None? <==> forall i :: 0 <= i < |routes| ==> routes[i].path != path
    ensures g.Some? ==> exists i :: 0 <= i < |routes| && routes[i] == Route(path, g.value)
  {
    if |routes| == 0 then None
    else if routes[0].path == path then Some(routes[0].guard)
    else GuardOf(routes[1..], path)
  }

  /** The paths a role can open, in table order. */
  function Reachable(routes: seq<Route>, roleId: Option<string>): (paths: seq<string>)
    ensures forall i :: 0 <= i < |paths| ==> exists j :: 0 <= j < |routes| && routes[j].path == paths[i] && Accepts(routes[j].guard, roleId)
    ensures forall j :: 0 <= j < |routes| && Accepts(routes[j].guard, roleId) ==> routes[j].path in paths
  {
    if |routes| == 0 then []
    else (if Accepts(routes[0].guard, roleId) then [routes[0].path] else []) + Reachable(routes[1..], roleId)
  }

  /** No two routes share a path. */
  lemma PathsDistinct()
    ensures forall i, j :: 0 <= i < j < |AdminRoutes| ==> AdminRoutes[i].path != AdminRoutes[j].path
  {
    assert |AdminRoutes[0].path| == 17 && |AdminRoutes[1].path| == 18 && |AdminRoutes[2].path| == 5;
    assert |AdminRoutes[3].path| == 7 && |AdminRoutes[4].path| == 8 && |AdminRoutes[5].path| == 13;
  }

  /** The owner passes every route's guard, the manager all but the first
      three (the owner's), a plain user only the last (their own expenses),
      and the auditor none. */
  lemma GuardsByRole(j: int)
    requires 0 <= j < |AdminRoutes|
    ensures Accepts(AdminRoutes[j].guard, Some("1"))
    ensures Accepts(AdminRoutes[j].guard, Some("3")) <==> 3 <= j
    ensures Accepts(AdminRoutes[j].guard, Some("2")) <==> j == 5
    ensures !Accepts(AdminRoutes[j].guard, Some("5"))
  {
    AcceptedRoles(Some("1"));
    AcceptedRoles(Some("2"));
    AcceptedRoles(Some("3"));
    AcceptedRoles(Some("5"));
  }
}
