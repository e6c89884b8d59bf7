/** The three collections the backend keeps (users, admins, tasks), each a
    map from document id to record, and the invariant the handlers keep. */
module Store {
  import opened JsValues
  import opened Credentials

  datatype User = User(name: string, email: string, password: PasswordHash)

  /** The `role` enum of the admin schema. */
  datatype Role = AdminRole | SuperAdminRole

  /** An admin record. */
  datatype Admin = Admin(name: string, email: string, password: PasswordHash, role: Role)

  /** A task. Title and description are stored as given (possibly absent). */
  datatype Task = Task(title: Option<string>, description: Option<string>, category: string, completed: bool, userId: string)

  /** Every task belongs to a stored user. */
  predicate TasksOwned(tasks: map<string, Task>, users: map<string, User>) {
    forall id :: id in tasks ==> tasks[id].userId in users
  }

  /** The unique index on admin emails. */
  predicate AdminEmailsUnique(admins: map<string, Admin>) {
    forall a, b :: a in admins && b in admins && admins[a].email == admins[b].email ==> a == b
  }

  /** The admins with the superadmin role. */
  function SuperAdmins(admins: map<string, Admin>): set<string> {
    set id | id in admins && admins[id].role == SuperAdminRole
  }

  /** `find({ userId })`: the tasks of one user. */
  function TasksOf(tasks: map<string, Task>, userId: string): (r: map<string, Task>)
    ensures forall id :: id in r <==> id in tasks && tasks[id].userId == userId
    ensures forall id :: id in r ==> r[id] == tasks[id]
  {
    map id | id in tasks && tasks[id].userId == userId :: tasks[id]
  }

  /** `deleteMany({ userId })`: every task but those of one user. */
  function TasksNotOf(tasks: map<string, Task>, userId: string): (r: map<string, Task>)
    ensures forall id :: id in r <==> id in tasks && tasks[id].userId != userId
    ensures forall id :: id in r ==> r[id] == tasks[id]
  {
    map id | id in tasks && tasks[id].userId != userId :: tasks[id]
  }

  /** The tasks of a user and the rest partition the store. */
  lemma TasksSplit(tasks: map<string, Task>, userId: string)
    ensures TasksOf(tasks, userId).Keys + TasksNotOf(tasks, userId).Keys == tasks.Keys
    ensures TasksOf(tasks, userId).Keys * TasksNotOf(tasks, userId).Keys == {}
  {
  }

  /** The database the handlers share. */
  class Database {
    var users: map<string, User>
    var admins: map<string, Admin>
    var tasks: map<string, Task>

    predicate Valid()
      reads this
    {
      TasksOwned(tasks, users) && AdminEmailsUnique(admins)
    }

    constructor ()
      ensures users == map[] && admins == map[] && tasks == map[]
      ensures Valid()
    {
      users := map[];
      admins := map[];
      tasks := map[];
    }
  }
}
