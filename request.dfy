/** The parts of an Express request the gates read and write: the
    `Authorization` header and the principal fields the gates attach. */
module Requests {
  import opened JsValues
  import opened Credentials
  import opened Store

  /** A request property that was never assigned, was assigned `null`, or
      holds a value. */
  datatype Slot<T> = Unset | Missing | Present(value: T)

  /** A user document loaded with `.select('-password')`. */
  datatype UserDoc = UserDoc(id: string, name: string, email: string)

  /** An admin document; `password` is absent when it was selected out. */
  datatype AdminDoc = AdminDoc(id: string, name: string, email: string, role: Role, password: Option<PasswordHash>)

  /** `req.user` holds a user document (set by `protect`) or the decoded
      token payload (set by `requireAuth`). */
  datatype UserValue = UserDocument(doc: UserDoc) | DecodedClaims(claims: Claims)

  /** Everything of the request the gates touch, as one value. */
  datatype RequestState = RequestState(
    authorization: Option<string>,
    user: Slot<UserValue>,
    admin: Slot<AdminDoc>,
    isAdmin: Option<bool>,
    token: Option<string>)

  /** `User.findById(id).select('-password')`: the document, or `null`. */
  function FindUser(users: map<string, User>, id: string): Slot<UserDoc>
  {
    if id in users then Present(UserDoc(id, users[id].name, users[id].email)) else Missing
  }

  /** `Admin.findById(id)`, with the password selected out or kept. */
  function FindAdmin(admins: map<string, Admin>, id: string, withPassword: bool): Slot<AdminDoc>
  {
    if id !in admins then Missing
    else
      var a := admins[id];
      Present(AdminDoc(id, a.name, a.email, a.role, if withPassword then Some(a.password) else None))
  }

  /** A request as Express builds it: only the header is set. */
  function Fresh(authorization: Option<string>): RequestState {
    RequestState(authorization, Unset, Unset, None, None)
  }

  class Request {
    var authorization: Option<string>
    var user: Slot<UserValue>
    var admin: Slot<AdminDoc>
    var isAdmin: Option<bool>
    var token: Option<string>

    function State(): RequestState
      reads this
    {
      RequestState(authorization, user, admin, isAdmin, token)
    }

    constructor (authorization: Option<string>)
      ensures State() == Fresh(authorization)
    {
      this.authorization := authorization;
      user := Unset;
      admin := Unset;
      isAdmin := None;
      token := None;
    }
  }
}
