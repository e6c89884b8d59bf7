/** The `/api/task` router: every route runs `requireAuth` and nothing else
    before its handler. */
module TaskRoute {
  import opened JsValues
  import opened Credentials
  import opened Requests
  import opened AuthMiddleware
  import opened RequireAuth
  import opened Routing

  const TaskRoutes: seq<Route> := [
    Route(Post, "/addTask", [RequireAuthGuard], "addTask"),
    Route(Get, "/getTask", [RequireAuthGuard], "getTask"),
    Route(Delete, "/removeTask", [RequireAuthGuard], "removeTask"),
    Route(Put, "/updateTask", [RequireAuthGuard], "updateTask"),
    Route(Put, "/markDone", [RequireAuthGuard], "markDone")
  ]

  /** `requireAuth` is the only guard: no validation, no admin check;
      ownership is left to the handlers. */
  lemma GuardTable()
    ensures |TaskRoutes| == 5
    ensures forall i :: 0 <= i < |TaskRoutes| ==> TaskRoutes[i].guards == [RequireAuthGuard]
    ensures forall i, g :: 0 <= i < |TaskRoutes| && g in TaskRoutes[i].guards ==> g == RequireAuthGuard
  {
  }

  /** A refused request reaches the client as 401 with the gate's message. */
  lemma RefusalIs401(s: RequestState, ctx: Context, i: int, development: bool)
    requires 0 <= i < |TaskRoutes|
    requires RunGuards(TaskRoutes[i].guards, s, ctx).Refused?
    ensures ClientStatus(RunGuards(TaskRoutes[i].guards, s, ctx), development) == 401
  {
    var r := RunGuards(TaskRoutes[i].guards, s, ctx);
    assert TaskRoutes[i].guards[1..] == [];
    assert r.guard == RequireAuthGuard;
    RefusalReaches401(s, ctx.verify, development);
  }

  /** Any issued token, admin tokens included, reaches every task handler
      with its claims as `req.user`. */
  lemma IssuedTokenReachesHandler(sign: TokenPayload -> string, s: RequestState, ctx: Context,
                                  id: string, isAdmin: Option<bool>, i: int)
    requires IssuerSound(sign, ctx.verify)
    requires s.authorization == Some("Bearer " + CreateToken(sign, id, isAdmin))
    requires 0 <= i < |TaskRoutes|
    ensures RunGuards(TaskRoutes[i].guards, s, ctx).Proceeded?
    ensures RunGuards(TaskRoutes[i].guards, s, ctx).state.user == Present(DecodedClaims(Claims(id, isAdmin.None? || isAdmin.value)))
  {
    assert "Bearer" + " " + CreateToken(sign, id, isAdmin) == "Bearer " + CreateToken(sign, id, isAdmin);
    assert ' ' !in "Bearer";
    IssuedTokenPasses(sign, ctx.verify, s, "Bearer", id, isAdmin);
    assert TaskRoutes[i].guards[1..] == [];
  }
}
