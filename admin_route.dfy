/** The `/api/admin` router: two public routes and the rest behind
    `protect` then `adminOnly`. */
module AdminRoute {
  import opened JsValues
  import opened Credentials
  import opened Requests
  import opened ErrorHandler
  import opened AuthMiddleware
  import opened Routing

  const Guarded := [ProtectGuard, AdminOnlyGuard]

  const AdminRoutes: seq<Route> := [
    Route(Post, "/login", [], "adminLogin"),
    Route(Post, "/reset-superadmin", [], "resetSuperAdminPassword"),
    Route(Get, "/dashboard", Guarded, "getDashboardStats"),
    Route(Get, "/users", Guarded, "getAllUsers"),
    Route(Post, "/users", Guarded, "createUser"),
    Route(Put, "/users/:id", Guarded, "updateUser"),
    Route(Delete, "/users/:id", Guarded, "deleteUser"),
    Route(Get, "/tasks", Guarded, "getAllTasks"),
    Route(Post, "/tasks", Guarded, "createTask"),
    Route(Put, "/tasks/:id", Guarded, "updateTask"),
    Route(Delete, "/tasks/:id", Guarded, "deleteTask"),
    Route(Patch, "/tasks/:id/toggle-status", Guarded, "toggleTaskStatus"),
    Route(Get, "/profile", Guarded, "getAdminProfile"),
    Route(Put, "/profile", Guarded, "updateAdminProfile"),
    Route(Put, "/change-password", Guarded, "changeAdminPassword")
  ]

  predicate IsPublic(r: Route) {
    r.path == "/login" || r.path == "/reset-superadmin"
  }

  /** Exactly the login and the superadmin reset are open; every other
      route runs `protect` then `adminOnly` before its handler. */
  lemma GuardTable()
    ensures forall i :: 0 <= i < |AdminRoutes| ==> (IsPublic(AdminRoutes[i]) <==> AdminRoutes[i].guards == [])
    ensures forall i :: 0 <= i < |AdminRoutes| && !IsPublic(AdminRoutes[i]) ==> AdminRoutes[i].guards == Guarded
    ensures exists i :: 0 <= i < |AdminRoutes| && AdminRoutes[i] == Route(Post, "/login", [], "adminLogin")
    ensures exists i :: 0 <= i < |AdminRoutes| && AdminRoutes[i] == Route(Post, "/reset-superadmin", [], "resetSuperAdminPassword")
  {
    assert AdminRoutes[0] == Route(Post, "/login", [], "adminLogin");
    assert AdminRoutes[1] == Route(Post, "/reset-superadmin", [], "resetSuperAdminPassword");
  }

  /** On a guarded route, a request without a bearer header stops at
      `protect` with 401 'no token'; as written it reaches the client as
      500, and the status set before the throw is lost. */
  lemma NoTokenStopsAtProtect(s: RequestState, ctx: Context, development: bool)
    requires !IsBearer(s.authorization)
    ensures RunGuards(Guarded, s, ctx) == Refused(ProtectGuard, 401, NoTokenMessage)
    ensures ClientStatus(RunGuards(Guarded, s, ctx), development) == 500
    ensures IntendedClientStatus(RunGuards(Guarded, s, ctx), development) == 401
  {
    ThrownRefusalIs500(Deny(401, NoTokenMessage), development);
    ForwardedRefusalKeepsStatus(Deny(401, NoTokenMessage), development);
  }

  /** A user token passes `protect` and is refused by `adminOnly` with
      403; as written the client sees 500, intended is 403. */
  lemma UserTokenRefusedByGuards(sign: TokenPayload -> string, s: RequestState, ctx: Context,
                                 id: string, development: bool)
    requires IssuerSound(sign, ctx.verify)
    requires s.authorization == Some("Bearer " + CreateToken(sign, id, Some(false)))
    ensures RunGuards(Guarded, s, ctx) == Refused(AdminOnlyGuard, 403, NotAdminMessage)
    ensures ClientStatus(RunGuards(Guarded, s, ctx), development) == 500
    ensures IntendedClientStatus(RunGuards(Guarded, s, ctx), development) == 403
  {
    IssuedUserTokenRefusedByAdminOnly(sign, ctx.verify, s, ctx.admins, ctx.users, id);
    var (d, s') := ProtectStep(s, ctx.admins, ctx.users, ctx.verify);
    assert Guarded[1..] == [AdminOnlyGuard];
    assert RunGuards([AdminOnlyGuard], s', ctx) == Refused(AdminOnlyGuard, 403, NotAdminMessage);
    ThrownRefusalIs500(Deny(403, NotAdminMessage), development);
    ForwardedRefusalKeepsStatus(Deny(403, NotAdminMessage), development);
  }

  /** The same refusal on every guarded admin route, the task update,
      delete and toggle routes included. */
  lemma UserTokenRefusedOnGuardedRoutes(sign: TokenPayload -> string, s: RequestState, ctx: Context,
                                        id: string, i: int, development: bool)
    requires IssuerSound(sign, ctx.verify)
    requires s.authorization == Some("Bearer " + CreateToken(sign, id, Some(false)))
    requires 0 <= i < |AdminRoutes| && !IsPublic(AdminRoutes[i])
    ensures RunGuards(AdminRoutes[i].guards, s, ctx) == Refused(AdminOnlyGuard, 403, NotAdminMessage)
    ensures ClientStatus(RunGuards(AdminRoutes[i].guards, s, ctx), development) == 500
    ensures IntendedClientStatus(RunGuards(AdminRoutes[i].guards, s, ctx), development) == 403
  {
    GuardTable();
    assert AdminRoutes[i].guards == Guarded;
    UserTokenRefusedByGuards(sign, s, ctx, id, development);
  }

  /** An admin token issued at login reaches the handler of every guarded
      route, flagged as admin, even when that admin has since been removed. */
  lemma AdminTokenReachesHandler(sign: TokenPayload -> string, s: RequestState, ctx: Context, id: string, i: int)
    requires IssuerSound(sign, ctx.verify)
    requires s.authorization == Some("Bearer " + CreateToken(sign, id, None))
    requires 0 <= i < |AdminRoutes|
    ensures RunGuards(AdminRoutes[i].guards, s, ctx).Proceeded?
    ensures RunGuards(AdminRoutes[i].guards, s, ctx).state.isAdmin == (if IsPublic(AdminRoutes[i]) then s.isAdmin else Some(true))
    ensures !IsPublic(AdminRoutes[i]) && id !in ctx.admins ==> RunGuards(AdminRoutes[i].guards, s, ctx).state.admin == Missing
  {
    GuardTable();
    if !IsPublic(AdminRoutes[i]) {
      IssuedAdminTokenPasses(sign, ctx.verify, s, ctx.admins, ctx.users, id);
      var (d, s') := ProtectStep(s, ctx.admins, ctx.users, ctx.verify);
      assert Guarded[1..] == [AdminOnlyGuard];
      assert [AdminOnlyGuard][1..] == [];
      assert RunGuards([AdminOnlyGuard], s', ctx) == Proceeded(s');
    }
  }
}
