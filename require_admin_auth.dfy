/** `requireAdminAuth`: a combined admin gate that checks the token, the
    admin flag and the admin record in turn, forwarding each refusal as an
    `AppError`. */
module RequireAdminAuth {
  import opened JsValues
  import opened Credentials
  import opened Store
  import opened Requests
  import opened AuthMiddleware
  import opened RequireAuth

  const MissingAdminHeaderMessage := "Authentication required. Please log in as admin."
  const NotAdminRefusal := "Access denied. Admin privileges required."
  const AdminNotFoundMessage := "Admin account not found."

  /** What `requireAdminAuth` decides and what it leaves on the request. */
  function RequireAdminAuthStep(s: RequestState, admins: map<string, Admin>, verify: string -> Option<Claims>)
    : (r: (Decision, RequestState))
    ensures r.0.Deny? ==> r.1 == s
    ensures !TruthyStr(s.authorization) ==> r.0 == Deny(401, MissingAdminHeaderMessage)
    ensures TruthyStr(s.authorization) ==>
              var t := HeaderToken(s.authorization.value);
              match JwtVerify(verify, Some(t))
              case None => r.0 == Deny(401, InvalidTokenRefusal)
              case Some(c) =>
                (!c.isAdmin ==> r.0 == Deny(403, NotAdminRefusal)) &&
                (c.isAdmin && c.id !in admins ==> r.0 == Deny(401, AdminNotFoundMessage)) &&
                (c.isAdmin && c.id in admins ==>
                   r.0 == Pass && r.1 == s.(admin := FindAdmin(admins, c.id, true), token := Some(t)))
  {
    if !TruthyStr(s.authorization) then (Deny(401, MissingAdminHeaderMessage), s)
    else
      var t := HeaderToken(s.authorization.value);
      var decoded := JwtVerify(verify, Some(t));
      if decoded.None? then (Deny(401, InvalidTokenRefusal), s)
      else if !decoded.value.isAdmin then (Deny(403, NotAdminRefusal), s)
      else
        var found := FindAdmin(admins, decoded.value.id, true);
        if !found.Present? then (Deny(401, AdminNotFoundMessage), s)
        else (Pass, s.(admin := found, token := Some(t)))
  }

  method RequireAdminAuth(req: Request, admins: map<string, Admin>, verify: string -> Option<Claims>)
    returns (d: Decision)
    modifies req
    ensures (d, req.State()) == RequireAdminAuthStep(old(req.State()), admins, verify)
  {
    var authorization := req.authorization;
    if authorization.None? || authorization.value == "" {
      return Deny(401, MissingAdminHeaderMessage);
    }
    var token := HeaderToken(authorization.value);
    var decoded := JwtVerify(verify, Some(token));
    if decoded.None? {
      return Deny(401, InvalidTokenRefusal);
    }
    if !decoded.value.isAdmin {
      return Deny(403, NotAdminRefusal);
    }
    var admin := FindAdmin(admins, decoded.value.id, true);
    if !admin.Present? {
      return Deny(401, AdminNotFoundMessage);
    }
    req.admin := admin;
    req.token := Some(token);
    d := Pass;
  }

  /** Passing this gate means a verified admin token whose admin exists;
      the stored record, password hash included, is attached. */
  lemma PassMeansStoredAdmin(s: RequestState, admins: map<string, Admin>, verify: string -> Option<Claims>)
    requires RequireAdminAuthStep(s, admins, verify).0.Pass?
    ensures TruthyStr(s.authorization)
    ensures var c := JwtVerify(verify, Some(HeaderToken(s.authorization.value)));
            c.Some? && c.value.isAdmin && c.value.id in admins &&
            RequireAdminAuthStep(s, admins, verify).1.admin.Present? &&
            RequireAdminAuthStep(s, admins, verify).1.admin.value.password == Some(admins[c.value.id].password)
  {
  }

  /** A user token is refused with 403, not 401. */
  lemma {:induction false} UserTokenGets403(sign: TokenPayload -> string, verify: string -> Option<Claims>,
                                            s: RequestState, admins: map<string, Admin>, id: string)
    requires IssuerSound(sign, verify)
    requires s.authorization == Some("Bearer " + CreateToken(sign, id, Some(false)))
    ensures RequireAdminAuthStep(s, admins, verify).0 == Deny(403, NotAdminRefusal)
  {
    var token := CreateToken(sign, id, Some(false));
    CreatedTokenVerifies(sign, verify, id, Some(false));
    assert "Bearer" + " " + token == "Bearer " + token;
    SecondPieceOfJoined("Bearer", token);
    assert HeaderToken(s.authorization.value) == token;
  }

  /** The three checks run in order: a refusal for one reason implies the
      earlier checks passed. */
  lemma RefusalOrder(s: RequestState, admins: map<string, Admin>, verify: string -> Option<Claims>)
    ensures RequireAdminAuthStep(s, admins, verify).0 == Deny(403, NotAdminRefusal) ==>
              TruthyStr(s.authorization) && JwtVerify(verify, Some(HeaderToken(s.authorization.value))).Some?
    ensures RequireAdminAuthStep(s, admins, verify).0 == Deny(401, AdminNotFoundMessage) ==>
              TruthyStr(s.authorization) &&
              JwtVerify(verify, Some(HeaderToken(s.authorization.value))).Some? &&
              JwtVerify(verify, Some(HeaderToken(s.authorization.value))).value.isAdmin
  {
  }
}
