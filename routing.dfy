/** Running the middleware chain of an Express route: each guard either
    calls `next()`, handing the request on, or refuses and ends the chain. */
module Routing {
  import opened JsValues
  import opened Credentials
  import opened Store
  import opened Requests
  import opened ErrorHandler
  import opened AuthMiddleware
  import opened RequireAuth

  datatype Verb = Get | Post | Put | Delete | Patch

  datatype Guard = ProtectGuard | AdminOnlyGuard | RequireAuthGuard

  /** `router.verb(path, guards..., handler)`. */
  datatype Route = Route(verb: Verb, path: string, guards: seq<Guard>, handler: string)

  /** The outcome of a chain: the handler runs on the final request, or
      one guard refused. */
  datatype ChainResult = Proceeded(state: RequestState) | Refused(guard: Guard, status: int, message: string)

  /** The stores and the verifier the guards consult. */
  datatype Context = Context(admins: map<string, Admin>, users: map<string, User>, verify: string -> Option<Claims>)

  function GuardStep(g: Guard, s: RequestState, ctx: Context): (Decision, RequestState) {
    match g
    case ProtectGuard => ProtectStep(s, ctx.admins, ctx.users, ctx.verify)
    case AdminOnlyGuard => (AdminOnlyStep(s), s)
    case RequireAuthGuard => RequireAuthStep(s, ctx.verify)
  }

  /** Runs the guards left to right. */
  function RunGuards(guards: seq<Guard>, s: RequestState, ctx: Context): (r: ChainResult)
    ensures guards == [] ==> r == Proceeded(s)
    ensures r.Refused? ==> r.guard in guards
    decreases |guards|
  {
    if guards == [] then Proceeded(s)
    else
      var (d, s') := GuardStep(guards[0], s, ctx);
      match d
      case Deny(status, message) => Refused(guards[0], status, message)
      case Pass => RunGuards(guards[1..], s', ctx)
  }

  /** The status the client sees for a refusal, as the source reports it:
      `protect` and `adminOnly` throw a plain `Error`, `requireAuth` forwards
      an `AppError`. */
  function ClientStatus(r: ChainResult, development: bool): int
    requires r.Refused?
  {
    if r.guard == RequireAuthGuard then Respond(ForwardedError(Deny(r.status, r.message)), development).httpStatus
    else Respond(ThrownError(Deny(r.status, r.message)), development).httpStatus
  }

  /** The status the client would see if every refusal were forwarded as an
      `AppError` with the status the guard sets. */
  function IntendedClientStatus(r: ChainResult, development: bool): int
    requires r.Refused?
  {
    Respond(ForwardedError(Deny(r.status, r.message)), development).httpStatus
  }

  /** The guards themselves never refuse with status 0. */
  lemma {:induction false} RefusalStatusNonZero(guards: seq<Guard>, s: RequestState, ctx: Context)
    ensures RunGuards(guards, s, ctx).Refused? ==> RunGuards(guards, s, ctx).status in {401, 403}
    decreases |guards|
  {
    if guards != [] {
      var (d, s') := GuardStep(guards[0], s, ctx);
      if d.Pass? {
        RefusalStatusNonZero(guards[1..], s', ctx);
      }
    }
  }

  /** With the refusals forwarded, the client sees the guard's own status. */
  lemma IntendedStatusIsGuardStatus(guards: seq<Guard>, s: RequestState, ctx: Context, development: bool)
    requires RunGuards(guards, s, ctx).Refused?
    ensures IntendedClientStatus(RunGuards(guards, s, ctx), development) == RunGuards(guards, s, ctx).status
  {
    var r := RunGuards(guards, s, ctx);
    RefusalStatusNonZero(guards, s, ctx);
    ForwardedRefusalKeepsStatus(Deny(r.status, r.message), development);
  }
}
