/** `protect` and `adminOnly`: the bearer-token gate of the admin routes
    and the role check behind it. Both report a refusal by setting the
    response status and throwing a plain `Error`. */
module AuthMiddleware {
  import opened JsValues
  import opened Credentials
  import opened Store
  import opened Requests
  import opened ErrorHandler

  /** A gate's verdict: call `next()`, or refuse with a status and message. */
  datatype Decision = Pass | Deny(status: int, message: string)

  const NoTokenMessage := "Not authorized, no token"
  const TokenFailedMessage := "Not authorized, token failed"
  const NotAdminMessage := "Not authorized as an admin"

  /** `authorization && authorization.startsWith('Bearer')`. */
  predicate IsBearer(authorization: Option<string>) {
    TruthyStr(authorization) && StartsWith(authorization.value, "Bearer")
  }

  /** The claims `protect` works with: those of the second piece of a
      bearer header, when the verifier accepts it. */
  function ProtectClaims(authorization: Option<string>, verify: string -> Option<Claims>): Option<Claims>
    requires IsBearer(authorization)
  {
    JwtVerify(verify, SecondPiece(authorization.value))
  }

  /** What `protect` decides and what it leaves on the request. */
  function ProtectStep(s: RequestState, admins: map<string, Admin>, users: map<string, User>,
                       verify: string -> Option<Claims>): (r: (Decision, RequestState))
    ensures r.1.authorization == s.authorization && r.1.token == s.token
    ensures !IsBearer(s.authorization) ==> r == (Deny(401, NoTokenMessage), s)
    ensures IsBearer(s.authorization) && ProtectClaims(s.authorization, verify).None? ==>
              r == (Deny(401, TokenFailedMessage), s)
    ensures r.0.Pass? <==> IsBearer(s.authorization) && ProtectClaims(s.authorization, verify).Some?
    ensures r.0.Pass? ==>
              var c := ProtectClaims(s.authorization, verify).value;
              if c.isAdmin then
                r.1.user == s.user && r.1.isAdmin == Some(true) &&
                (c.id in admins ==> r.1.admin == Present(AdminDoc(c.id, admins[c.id].name, admins[c.id].email, admins[c.id].role, None))) &&
                (c.id !in admins ==> r.1.admin == Missing)
              else
                r.1.admin == s.admin && r.1.isAdmin == Some(false) &&
                (c.id in users ==> r.1.user == Present(UserDocument(UserDoc(c.id, users[c.id].name, users[c.id].email)))) &&
                (c.id !in users ==> r.1.user == Missing)
  {
    if !IsBearer(s.authorization) then (Deny(401, NoTokenMessage), s)
    else
      var decoded := ProtectClaims(s.authorization, verify);
      if decoded.None? then (Deny(401, TokenFailedMessage), s)
      else if decoded.value.isAdmin then
        (Pass, s.(admin := FindAdmin(admins, decoded.value.id, false), isAdmin := Some(true)))
      else
        (Pass, s.(user := UserSlot(FindUser(users, decoded.value.id)), isAdmin := Some(false)))
  }

  /** A looked-up user document as a `req.user` value (`null` stays `null`). */
  function UserSlot(found: Slot<UserDoc>): Slot<UserValue>
  {
    match found
    case Unset => Unset
    case Missing => Missing
    case Present(doc) => Present(UserDocument(doc))
  }

  /** `protect(req, res, next)`. */
  method Protect(req: Request, admins: map<string, Admin>, users: map<string, User>, verify: string -> Option<Claims>)
    returns (d: Decision)
    modifies req
    ensures (d, req.State()) == ProtectStep(old(req.State()), admins, users, verify)
  {
    var token: Option<string> := None;
    if req.authorization.Some? && req.authorization.value != "" && StartsWith(req.authorization.value, "Bearer") {
      token := SecondPiece(req.authorization.value);
      var decoded := JwtVerify(verify, token);
      if decoded.None? {
        return Deny(401, TokenFailedMessage);
      }
      if decoded.value.isAdmin {
        req.admin := FindAdmin(admins, decoded.value.id, false);
        req.isAdmin := Some(true);
      } else {
        req.user := UserSlot(FindUser(users, decoded.value.id));
        req.isAdmin := Some(false);
      }
      d := Pass;
    }
    if !TruthyStr(token) {
      return Deny(401, NoTokenMessage);
    }
  }

  /** `adminOnly`: passes exactly when `req.isAdmin` is truthy. */
  function AdminOnlyStep(s: RequestState): Decision
  {
    if s.isAdmin.Some? && s.isAdmin.value then Pass else Deny(403, NotAdminMessage)
  }

  method AdminOnly(req: Request) returns (d: Decision)
    ensures d == AdminOnlyStep(req.State())
  {
    if req.isAdmin == Some(true) {
      d := Pass;
    } else {
      d := Deny(403, NotAdminMessage);
    }
  }

  /** How the source reports a refusal: `res.status(s)` followed by
      `throw new Error(message)`, which reaches `errorHandler` as an error
      without a status code. */
  function ThrownError(d: Decision): JsError
    requires d.Deny?
  {
    PlainError(d.message)
  }

  /** The evidently intended report: an `AppError` carrying the status. */
  function ForwardedError(d: Decision): JsError
    requires d.Deny?
  {
    NewAppError(d.message, d.status)
  }

  /** As written, every refusal of these gates reaches the client as 500. */
  lemma ThrownRefusalIs500(d: Decision, development: bool)
    requires d.Deny?
    ensures Respond(ThrownError(d), development).httpStatus == 500
  {
    PlainErrorIs500(d.message, development);
  }

  /** Forwarded as an `AppError`, a refusal keeps its 401 or 403. */
  lemma ForwardedRefusalKeepsStatus(d: Decision, development: bool)
    requires d.Deny? && d.status != 0
    ensures Respond(ForwardedError(d), development).httpStatus == d.status
    ensures Respond(ForwardedError(d), development).message == d.message
  {
    AppErrorKeepsStatus(d.message, d.status, development);
  }

  /** A header that is missing, empty, or not of the bearer form is refused
      with 'no token', and nothing is attached. */
  lemma NonBearerRefused(s: RequestState, admins: map<string, Admin>, users: map<string, User>,
                         verify: string -> Option<Claims>)
    requires !IsBearer(s.authorization)
    ensures ProtectStep(s, admins, users, verify) == (Deny(401, NoTokenMessage), s)
  {
  }

  /** A token issued by `createToken` for an admin id passes `protect`,
      whether or not that admin still exists: the lookup is never checked
      for `null`. */
  lemma {:induction false} IssuedAdminTokenPasses(sign: TokenPayload -> string, verify: string -> Option<Claims>,
                                                  s: RequestState, admins: map<string, Admin>, users: map<string, User>, id: string)
    requires IssuerSound(sign, verify)
    requires s.authorization == Some("Bearer " + CreateToken(sign, id, None))
    ensures ProtectStep(s, admins, users, verify).0 == Pass
    ensures ProtectStep(s, admins, users, verify).1.isAdmin == Some(true)
    ensures id !in admins ==> ProtectStep(s, admins, users, verify).1.admin == Missing
    ensures AdminOnlyStep(ProtectStep(s, admins, users, verify).1) == Pass
  {
    var token := CreateToken(sign, id, None);
    CreatedTokenVerifies(sign, verify, id, None);
    assert ' ' !in token;
    assert ' ' !in "Bearer";
    SecondPieceOfJoined("Bearer", token);
    var h := "Bearer " + token;
    assert "Bearer" + " " + token == h;
    assert h[..6] == "Bearer";
    assert SecondPiece(h) == Some(token);
    assert ProtectClaims(s.authorization, verify) == Some(Claims(id, true));
  }

  /** A user token passes `protect` and is then refused by `adminOnly` with 403. */
  lemma {:induction false} IssuedUserTokenRefusedByAdminOnly(sign: TokenPayload -> string, verify: string -> Option<Claims>,
                                                            s: RequestState, admins: map<string, Admin>, users: map<string, User>, id: string)
    requires IssuerSound(sign, verify)
    requires s.authorization == Some("Bearer " + CreateToken(sign, id, Some(false)))
    ensures ProtectStep(s, admins, users, verify).0 == Pass
    ensures AdminOnlyStep(ProtectStep(s, admins, users, verify).1) == Deny(403, NotAdminMessage)
  {
    var token := CreateToken(sign, id, Some(false));
    CreatedTokenVerifies(sign, verify, id, Some(false));
    assert ' ' !in token;
    assert ' ' !in "Bearer";
    SecondPieceOfJoined("Bearer", token);
    var h := "Bearer " + token;
    assert "Bearer" + " " + token == h;
    assert h[..6] == "Bearer";
    assert SecondPiece(h) == Some(token);
    assert ProtectClaims(s.authorization, verify) == Some(Claims(id, false));
  }

  /** `adminOnly` never answers 401. */
  lemma AdminOnlyNever401(s: RequestState)
    ensures AdminOnlyStep(s) != Deny(401, NotAdminMessage)
    ensures AdminOnlyStep(s).Deny? ==> AdminOnlyStep(s).status == 403
  {
  }

  /** The guard pair of the admin routes on a fresh request: `protect`
      then `adminOnly` let it through exactly when the bearer token
      verifies to claims with the admin flag set; the stored admins and
      users play no part in the verdict. Otherwise a bad header is refused
      by `protect` with 401 and a user token by `adminOnly` with 403. */
  lemma {:induction false} ProtectThenAdminOnly(authorization: Option<string>, admins: map<string, Admin>,
                                                users: map<string, User>, verify: string -> Option<Claims>)
    ensures var (d, s) := ProtectStep(Fresh(authorization), admins, users, verify);
            (d.Pass? && AdminOnlyStep(s).Pass?) <==>
              IsBearer(authorization) && ProtectClaims(authorization, verify).Some? &&
              ProtectClaims(authorization, verify).value.isAdmin
    ensures var (d, s) := ProtectStep(Fresh(authorization), admins, users, verify);
            (d.Deny? ==> d.status == 401) && (d.Pass? && AdminOnlyStep(s).Deny? ==> AdminOnlyStep(s).status == 403)
  {
  }
}
