/** `requireAuth`: the gate of the user task routes. It reads the second
    word of the `Authorization` header as the token, whatever the first
    word, and forwards refusals as `AppError`s. */
module RequireAuth {
  import opened JsValues
  import opened Credentials
  import opened Requests
  import opened ErrorHandler
  import opened AuthMiddleware

  const MissingHeaderMessage := "Authentication required. Please log in."
  const InvalidTokenRefusal := "Invalid or expired token. Please log in again."

  /** `authorization.split(' ')[1] + ""`: the second word, or the string
      "undefined" when the header holds no space. */
  function HeaderToken(authorization: string): string
  {
    match SecondPiece(authorization)
    case Some(piece) => piece
    case None => "undefined"
  }

  /** What `requireAuth` decides and what it leaves on the request: it
      passes exactly when a header is present and its second word
      verifies, and then attaches the decoded claims and that word; every
      refusal is a 401 that leaves the request as it was. */
  function RequireAuthStep(s: RequestState, verify: string -> Option<Claims>): (r: (Decision, RequestState))
    ensures r.0.Deny? ==> r.1 == s && r.0.status == 401
    ensures r.0.Deny? ==> (r.0.message == MissingHeaderMessage <==> !TruthyStr(s.authorization))
    ensures r.0.Pass? <==> TruthyStr(s.authorization) && JwtVerify(verify, Some(HeaderToken(s.authorization.value))).Some?
    ensures r.0.Pass? ==>
              var t := HeaderToken(s.authorization.value);
              r.1 == s.(user := Present(DecodedClaims(JwtVerify(verify, Some(t)).value)), token := Some(t))
  {
    if !TruthyStr(s.authorization) then (Deny(401, MissingHeaderMessage), s)
    else
      var t := HeaderToken(s.authorization.value);
      var decoded := JwtVerify(verify, Some(t));
      if decoded.None? then (Deny(401, InvalidTokenRefusal), s)
      else (Pass, s.(user := Present(DecodedClaims(decoded.value)), token := Some(t)))
  }

  method RequireAuth(req: Request, verify: string -> Option<Claims>) returns (d: Decision)
    modifies req
    ensures (d, req.State()) == RequireAuthStep(old(req.State()), verify)
  {
    var authorization := req.authorization;
    if authorization.None? || authorization.value == "" {
      return Deny(401, MissingHeaderMessage);
    }
    var token := HeaderToken(authorization.value);
    var decoded := JwtVerify(verify, Some(token));
    if decoded.None? {
      return Deny(401, InvalidTokenRefusal);
    }
    req.user := Present(DecodedClaims(decoded.value));
    req.token := Some(token);
    d := Pass;
  }

  /** Every token `createToken` issues passes, admin tokens included, and
      whatever word precedes it in the header: the decoded claims become
      `req.user` and the token `req.token`. */
  lemma {:induction false} IssuedTokenPasses(sign: TokenPayload -> string, verify: string -> Option<Claims>,
                                             s: RequestState, scheme: string, id: string, isAdmin: Option<bool>)
    requires IssuerSound(sign, verify)
    requires ' ' !in scheme
    requires s.authorization == Some(scheme + " " + CreateToken(sign, id, isAdmin))
    ensures RequireAuthStep(s, verify).0 == Pass
    ensures RequireAuthStep(s, verify).1.user == Present(DecodedClaims(Claims(id, isAdmin.None? || isAdmin.value)))
    ensures RequireAuthStep(s, verify).1.token == Some(CreateToken(sign, id, isAdmin))
  {
    var token := CreateToken(sign, id, isAdmin);
    CreatedTokenVerifies(sign, verify, id, isAdmin);
    SecondPieceOfJoined(scheme, token);
    assert HeaderToken(s.authorization.value) == token;
  }

  /** A header without a space, such as a bare token, yields the string
      "undefined" as its token, and the request passes exactly when the
      verifier accepts that string. */
  lemma NoSpaceHeaderVerifiesUndefined(s: RequestState, verify: string -> Option<Claims>)
    requires TruthyStr(s.authorization) && ' ' !in s.authorization.value
    ensures RequireAuthStep(s, verify).0.Pass? <==> verify("undefined").Some?
  {
    assert HeaderToken(s.authorization.value) == "undefined";
  }

  /** The refusals are forwarded as `AppError`s, so they reach the client
      as 401 with their own message. */
  lemma RefusalReaches401(s: RequestState, verify: string -> Option<Claims>, development: bool)
    requires RequireAuthStep(s, verify).0.Deny?
    ensures Respond(ForwardedError(RequireAuthStep(s, verify).0), development).httpStatus == 401
  {
    ForwardedRefusalKeepsStatus(RequireAuthStep(s, verify).0, development);
  }
}
