/** The admin handlers behind `/api/admin`: login, user and task
    management without ownership checks, and the two password operations.
    Failures are forwarded to `errorHandler` with `next(err)`. */
module AdminController {
  import opened JsValues
  import opened Credentials
  import opened Store
  import opened Requests
  import opened ErrorHandler
  import AdminModel

  /** `res.status(status).json(...)`, or `next(err)`. A `message` is empty
      when the body is a document. */
  datatype Outcome = Sent(status: int, message: string) | Forwarded(err: JsError)

  /** `next(new AppError(message, statusCode))`. */
  function Fail(message: string, statusCode: int): Outcome
  {
    Forwarded(NewAppError(message, statusCode))
  }

  const InvalidLogin := "Invalid email or password"
  const DefaultResetKey := "super-secret-reset-key"

  /** The `TypeError` of reading `_id` from a missing `req.admin`. */
  const MissingAdminError := JsError("Cannot read properties of null (reading '_id')", None, None, false, "TypeError", None, [], [])

  /** Some admin has this email and this password. */
  predicate CredentialsMatch(admins: map<string, Admin>, email: string, password: string) {
    exists id :: id in admins && admins[id].email == email && Matches(password, admins[id].password)
  }

  /** `adminLogin`: 400 for a missing field; for a wrong email and a wrong
      password alike, the same 401; otherwise 200 and an admin token for the
      account with that email. */
  method AdminLogin(db: Database, sign: TokenPayload -> string, email: Option<string>, password: Option<string>)
    returns (outcome: Outcome, token: Option<string>)
    requires AdminEmailsUnique(db.admins)
    ensures !TruthyStr(email) || !TruthyStr(password) ==>
              outcome == Fail("Email and password are required", 400) && token.None?
    ensures TruthyStr(email) && TruthyStr(password) && !CredentialsMatch(db.admins, email.value, password.value) ==>
              outcome == Fail(InvalidLogin, 401) && token.None?
    ensures outcome.Sent? <==> TruthyStr(email) && TruthyStr(password) && CredentialsMatch(db.admins, email.value, password.value)
    ensures outcome.Sent? ==>
              outcome.status == 200 &&
              exists id :: id in db.admins && db.admins[id].email == email.value &&
                           token == Some(CreateToken(sign, id, None))
  {
    if email.None? || email.value == "" || password.None? || password.value == "" {
      return Fail("Email and password are required", 400), None;
    }
    if !exists id :: id in db.admins && db.admins[id].email == email.value {
      return Fail(InvalidLogin, 401), None;
    }
    var id :| id in db.admins && db.admins[id].email == email.value;
    if !AdminModel.ComparePassword(db.admins[id], password.value) {
      return Fail(InvalidLogin, 401), None;
    }
    token := Some(CreateToken(sign, id, None));
    outcome := Sent(200, "");
  }

  /** `createUser`: 400 for a missing field, 400 for a taken email, each
      without a change; otherwise the user is stored with a hash of the
      password. */
  function CreateUserOutcome(users: map<string, User>, name: Option<string>, email: Option<string>,
                             password: Option<string>, newId: string): (r: (Outcome, map<string, User>))
    requires newId !in users
    ensures r.0.Forwarded? ==> r.1 == users
    ensures !TruthyStr(name) || !TruthyStr(email) || !TruthyStr(password) ==>
              r.0 == Fail("Name, email and password are required", 400)
    ensures TruthyStr(name) && TruthyStr(email) && TruthyStr(password) ==>
              if exists id :: id in users && users[id].email == email.value
              then r.0 == Fail("User with this email already exists", 400)
              else r.0 == Sent(201, "") && r.1 == users[newId := User(name.value, email.value, Hash(password.value))]
  {
    if !TruthyStr(name) || !TruthyStr(email) || !TruthyStr(password) then
      (Fail("Name, email and password are required", 400), users)
    else if exists id :: id in users && users[id].email == email.value then
      (Fail("User with this email already exists", 400), users)
    else
      (Sent(201, ""), users[newId := User(name.value, email.value, Hash(password.value))])
  }

  method CreateUser(db: Database, name: Option<string>, email: Option<string>, password: Option<string>, newId: string)
    returns (outcome: Outcome)
    requires newId !in db.users
    modifies db
    ensures (outcome, db.users) == CreateUserOutcome(old(db.users), name, email, password, newId)
    ensures db.admins == old(db.admins) && db.tasks == old(db.tasks)
    ensures old(db.Valid()) ==> db.Valid()
  {
    if name.None? || name.value == "" || email.None? || email.value == "" || password.None? || password.value == "" {
      return Fail("Name, email and password are required", 400);
    }
    var existing := exists id :: id in db.users && db.users[id].email == email.value;
    if existing {
      return Fail("User with this email already exists", 400);
    }
    var hashed := Hash(password.value);
    db.users := db.users[newId := User(name.value, email.value, hashed)];
    outcome := Sent(201, "");
  }

  /** The user after `updateUser`: name and email replaced only by truthy
      values, the password re-hashed only when one is given. */
  function UpdatedUser(u: User, name: Option<string>, email: Option<string>, password: Option<string>): User
  {
    User(if TruthyStr(name) then name.value else u.name,
         if TruthyStr(email) then email.value else u.email,
         if TruthyStr(password) then Hash(password.value) else u.password)
  }

  /** An update whose fields are all absent or empty changes nothing; a
      given password becomes the one that matches, and without one every
      password that matched still does. Applying the same update twice is
      applying it once. */
  lemma UpdatedUserProperties(u: User, name: Option<string>, email: Option<string>, password: Option<string>, candidate: string)
    ensures !TruthyStr(name) && !TruthyStr(email) && !TruthyStr(password) ==> UpdatedUser(u, name, email, password) == u
    ensures TruthyStr(password) ==> (Matches(candidate, UpdatedUser(u, name, email, password).password) <==> candidate == password.value)
    ensures !TruthyStr(password) ==> (Matches(candidate, UpdatedUser(u, name, email, password).password) <==> Matches(candidate, u.password))
    ensures UpdatedUser(UpdatedUser(u, name, email, password), name, email, password) == UpdatedUser(u, name, email, password)
  {
    if TruthyStr(password) {
      MatchesIff(candidate, password.value);
    }
  }

  method UpdateUser(db: Database, id: string, name: Option<string>, email: Option<string>, password: Option<string>)
    returns (outcome: Outcome)
    modifies db
    ensures id !in old(db.users) ==> outcome == Fail("User not found", 404) && db.users == old(db.users)
    ensures id in old(db.users) ==>
              outcome == Sent(200, "") && db.users == old(db.users)[id := UpdatedUser(old(db.users)[id], name, email, password)]
    ensures db.admins == old(db.admins) && db.tasks == old(db.tasks)
    ensures old(db.Valid()) ==> db.Valid()
  {
    if id !in db.users {
      return Fail("User not found", 404);
    }
    var user := db.users[id];
    if TruthyStr(name) {
      user := user.(name := name.value);
    }
    if TruthyStr(email) {
      user := user.(email := email.value);
    }
    if TruthyStr(password) {
      var hashed := Hash(password.value);
      user := user.(password := hashed);
    }
    db.users := db.users[id := user];
    outcome := Sent(200, "");
  }

  /** `deleteUser`: 404 without a change for an unknown id; otherwise the
      user goes, and every task of that user with it. */
  function DeleteUserOutcome(users: map<string, User>, tasks: map<string, Task>, id: string)
    : (r: (Outcome, map<string, User>, map<string, Task>))
    ensures id !in users ==> r == (Fail("User not found", 404), users, tasks)
    ensures id in users ==> r.0 == Sent(200, "User and associated tasks deleted successfully")
    ensures id in users ==> r.1 == users - {id}
    ensures id in users ==> forall k :: k in r.2 <==> k in tasks && tasks[k].userId != id
    ensures forall k :: k in r.2 ==> r.2[k] == tasks[k]
  {
    if id !in users then (Fail("User not found", 404), users, tasks)
    else (Sent(200, "User and associated tasks deleted successfully"), users - {id}, TasksNotOf(tasks, id))
  }

  method DeleteUser(db: Database, id: string) returns (outcome: Outcome)
    modifies db
    ensures (outcome, db.users, db.tasks) == DeleteUserOutcome(old(db.users), old(db.tasks), id)
    ensures db.admins == old(db.admins)
    ensures old(db.Valid()) ==> db.Valid()
  {
    if db.Valid() {
      DeleteUserKeepsTasksOwned(db.users, db.tasks, id);
    }
    if id !in db.users {
      return Fail("User not found", 404);
    }
    db.users := db.users - {id};
    db.tasks := TasksNotOf(db.tasks, id);
    outcome := Sent(200, "User and associated tasks deleted successfully");
  }

  /** The cascade is what keeps every task owned by a stored user. */
  lemma DeleteUserKeepsTasksOwned(users: map<string, User>, tasks: map<string, Task>, id: string)
    requires TasksOwned(tasks, users)
    ensures var r := DeleteUserOutcome(users, tasks, id); TasksOwned(r.2, r.1)
  {
  }

  /** Without the cascade, deleting a user with a task would break it. */
  lemma DeleteWithoutCascadeOrphans(users: map<string, User>, tasks: map<string, Task>, id: string, taskId: string)
    requires id in users && taskId in tasks && tasks[taskId].userId == id
    ensures !TasksOwned(tasks, users - {id})
  {
  }

  /** `createTask` by an admin: 400 without title or userId, 404 for an
      unknown user; otherwise the task is stored for that user. */
  function CreateTaskOutcome(users: map<string, User>, tasks: map<string, Task>, title: Option<string>,
                             description: Option<string>, category: Option<string>, userId: Option<string>,
                             newId: string): (r: (Outcome, map<string, Task>))
    requires newId !in tasks
    ensures r.0.Forwarded? ==> r.1 == tasks
    ensures !TruthyStr(title) || !TruthyStr(userId) ==> r.0 == Fail("Title and userId are required", 400)
    ensures TruthyStr(title) && TruthyStr(userId) && userId.value !in users ==> r.0 == Fail("User not found", 404)
    ensures r.0.Sent? <==> TruthyStr(title) && TruthyStr(userId) && userId.value in users
    ensures r.0.Sent? ==>
              r.0.status == 201 &&
              r.1 == tasks[newId := Task(title, description, if TruthyStr(category) then category.value else "others",
                                         false, userId.value)]
  {
    if !TruthyStr(title) || !TruthyStr(userId) then (Fail("Title and userId are required", 400), tasks)
    else if userId.value !in users then (Fail("User not found", 404), tasks)
    else
      (Sent(201, ""), tasks[newId := Task(title, description, if TruthyStr(category) then category.value else "others",
                                          false, userId.value)])
  }

  /** An admin-created task belongs to a stored user, so the ownership
      invariant survives it. */
  lemma CreateTaskKeepsTasksOwned(users: map<string, User>, tasks: map<string, Task>, title: Option<string>,
                                  description: Option<string>, category: Option<string>, userId: Option<string>,
                                  newId: string)
    requires newId !in tasks
    requires TasksOwned(tasks, users)
    ensures TasksOwned(CreateTaskOutcome(users, tasks, title, description, category, userId, newId).1, users)
  {
  }

  method CreateTask(db: Database, title: Option<string>, description: Option<string>, category: Option<string>,
                    userId: Option<string>, newId: string) returns (outcome: Outcome)
    requires newId !in db.tasks
    modifies db
    ensures (outcome, db.tasks) == CreateTaskOutcome(old(db.users), old(db.tasks), title, description, category, userId, newId)
    ensures db.users == old(db.users) && db.admins == old(db.admins)
    ensures old(db.Valid()) ==> db.Valid()
  {
    if db.Valid() {
      CreateTaskKeepsTasksOwned(db.users, db.tasks, title, description, category, userId, newId);
    }
    if !TruthyStr(title) || !TruthyStr(userId) {
      return Fail("Title and userId are required", 400);
    }
    if userId.value !in db.users {
      return Fail("User not found", 404);
    }
    var category' := if TruthyStr(category) then category.value else "others";
    db.tasks := db.tasks[newId := Task(title, description, category', false, userId.value)];
    outcome := Sent(201, "");
  }

  /** The task after the admin `updateTask`: title and category replaced
      only by truthy values, description and completed whenever defined. */
  function AdminEdited(t: Task, title: Option<string>, description: Option<string>, category: Option<string>,
                       completed: Option<bool>): Task
  {
    Task(if TruthyStr(title) then title else t.title,
         if description.Some? then description else t.description,
         if TruthyStr(category) then category.value else t.category,
         if completed.Some? then completed.value else t.completed,
         t.userId)
  }

  /** Admin `updateTask`: whoever owns the task, only a missing one fails. */
  method UpdateTask(db: Database, id: string, title: Option<string>, description: Option<string>,
                    category: Option<string>, completed: Option<bool>) returns (outcome: Outcome)
    modifies db
    ensures id !in old(db.tasks) ==> outcome == Fail("Task not found", 404) && db.tasks == old(db.tasks)
    ensures id in old(db.tasks) ==>
              outcome == Sent(200, "") &&
              db.tasks == old(db.tasks)[id := AdminEdited(old(db.tasks)[id], title, description, category, completed)]
    ensures db.users == old(db.users) && db.admins == old(db.admins)
    ensures old(db.Valid()) ==> db.Valid()
  {
    if id !in db.tasks {
      return Fail("Task not found", 404);
    }
    var task := db.tasks[id];
    if TruthyStr(title) {
      task := task.(title := title);
    }
    if description.Some? {
      task := task.(description := description);
    }
    if TruthyStr(category) {
      task := task.(category := category.value);
    }
    if completed.Some? {
      task := task.(completed := completed.value);
    }
    db.tasks := db.tasks[id := task];
    outcome := Sent(200, "");
  }

  /** Admin `deleteTask`: 404 for a missing task, otherwise exactly that task goes. */
  method DeleteTask(db: Database, id: string) returns (outcome: Outcome)
    modifies db
    ensures id !in old(db.tasks) ==> outcome == Fail("Task not found", 404) && db.tasks == old(db.tasks)
    ensures id in old(db.tasks) ==> outcome == Sent(200, "Task deleted successfully") && db.tasks == old(db.tasks) - {id}
    ensures db.users == old(db.users) && db.admins == old(db.admins)
    ensures old(db.Valid()) ==> db.Valid()
  {
    if id !in db.tasks {
      return Fail("Task not found", 404);
    }
    db.tasks := db.tasks - {id};
    outcome := Sent(200, "Task deleted successfully");
  }

  /** Admin `toggleTaskStatus`: 404 for a missing task, otherwise its
      `completed` flag flips. */
  method ToggleTaskStatus(db: Database, id: string) returns (outcome: Outcome)
    modifies db
    ensures id !in old(db.tasks) ==> outcome == Fail("Task not found", 404) && db.tasks == old(db.tasks)
    ensures id in old(db.tasks) ==>
              outcome == Sent(200, "") &&
              db.tasks == old(db.tasks)[id := old(db.tasks)[id].(completed := !old(db.tasks)[id].completed)]
    ensures db.users == old(db.users) && db.admins == old(db.admins)
    ensures old(db.Valid()) ==> db.Valid()
  {
    if id !in db.tasks {
      return Fail("Task not found", 404);
    }
    var task := db.tasks[id];
    task := task.(completed := !task.completed);
    db.tasks := db.tasks[id := task];
    outcome := Sent(200, "");
  }

  /** The admin task edits keep every task with its owner, so they keep
      the store's ownership invariant; an edit with no usable field changes
      nothing, and repeating an edit changes nothing more. */
  lemma AdminTaskEditsKeepOwner(t: Task, title: Option<string>, description: Option<string>, category: Option<string>,
                                completed: Option<bool>)
    ensures AdminEdited(t, title, description, category, completed).userId == t.userId
    ensures t.(completed := !t.completed).userId == t.userId
    ensures !TruthyStr(title) && description.None? && !TruthyStr(category) && completed.None? ==>
              AdminEdited(t, title, description, category, completed) == t
    ensures AdminEdited(AdminEdited(t, title, description, category, completed), title, description, category, completed)
            == AdminEdited(t, title, description, category, completed)
  {
  }

  /** `changeAdminPassword`: what it answers and the admin store after it. */
  function ChangePasswordOutcome(admins: map<string, Admin>, reqAdmin: Slot<AdminDoc>,
                                 currentPassword: Option<string>, newPassword: Option<string>)
    : (r: (Outcome, map<string, Admin>))
    ensures r.0 != Sent(200, "Password updated successfully") ==> r.1 == admins
    ensures !TruthyStr(currentPassword) || !TruthyStr(newPassword) ==>
              r.0 == Fail("Current password and new password are required", 400)
    ensures TruthyStr(currentPassword) && TruthyStr(newPassword) && !reqAdmin.Present? ==>
              r.0 == Forwarded(MissingAdminError)
    ensures TruthyStr(currentPassword) && TruthyStr(newPassword) && reqAdmin.Present? ==>
              var id := reqAdmin.value.id;
              (id !in admins ==> r.0 == Fail("Admin not found", 404)) &&
              (id in admins && !Matches(currentPassword.value, admins[id].password) ==>
                 r.0 == Fail("Current password is incorrect", 401)) &&
              (id in admins && Matches(currentPassword.value, admins[id].password) ==>
                 r.0 == Sent(200, "Password updated successfully") &&
                 r.1 == AdminModel.WithPassword(admins, id, newPassword.value))
  {
    if !TruthyStr(currentPassword) || !TruthyStr(newPassword) then
      (Fail("Current password and new password are required", 400), admins)
    else if !reqAdmin.Present? then (Forwarded(MissingAdminError), admins)
    else
      var id := reqAdmin.value.id;
      if id !in admins then (Fail("Admin not found", 404), admins)
      else if !AdminModel.ComparePassword(admins[id], currentPassword.value) then
        (Fail("Current password is incorrect", 401), admins)
      else (Sent(200, "Password updated successfully"), AdminModel.WithPassword(admins, id, newPassword.value))
  }

  method ChangeAdminPassword(db: Database, reqAdmin: Slot<AdminDoc>, currentPassword: Option<string>,
                             newPassword: Option<string>) returns (outcome: Outcome)
    modifies db
    ensures (outcome, db.admins) == ChangePasswordOutcome(old(db.admins), reqAdmin, currentPassword, newPassword)
    ensures db.users == old(db.users) && db.tasks == old(db.tasks)
    ensures old(db.Valid()) ==> db.Valid()
  {
    if !TruthyStr(currentPassword) || !TruthyStr(newPassword) {
      return Fail("Current password and new password are required", 400);
    }
    if !reqAdmin.Present? {
      return Forwarded(MissingAdminError);
    }
    var id := reqAdmin.value.id;
    if id !in db.admins {
      return Fail("Admin not found", 404);
    }
    var admin := db.admins[id];
    var isMatch := AdminModel.ComparePassword(admin, currentPassword.value);
    if !isMatch {
      return Fail("Current password is incorrect", 401);
    }
    AdminModel.WithPasswordKeepsEmails(db.admins, id, newPassword.value);
    var hashed := Hash(newPassword.value);
    db.admins := db.admins[id := admin.(password := hashed)];
    outcome := Sent(200, "Password updated successfully");
  }

  /** After a successful change the new password logs in and, when it
      differs, the old one no longer does. */
  lemma ChangedPasswordTakesEffect(admins: map<string, Admin>, reqAdmin: Slot<AdminDoc>, current: string, replacement: string)
    requires current != "" && replacement != ""
    requires ChangePasswordOutcome(admins, reqAdmin, Some(current), Some(replacement)).0.Sent?
    ensures reqAdmin.Present? && reqAdmin.value.id in admins
    ensures var after := ChangePasswordOutcome(admins, reqAdmin, Some(current), Some(replacement)).1;
            Matches(replacement, after[reqAdmin.value.id].password) &&
            (current != replacement ==> !Matches(current, after[reqAdmin.value.id].password))
  {
    var id := reqAdmin.value.id;
    assert Matches(current, admins[id].password);
    MatchesIff(current, replacement);
  }

  /** A `null` `req.admin` (an admin token whose admin was removed passes
      `protect`) reaches the client as 500. */
  lemma MissingAdminIs500(development: bool)
    ensures Respond(MissingAdminError, development).httpStatus == 500
  {
  }

  /** The reset key: the configured one when set, else the built-in default. */
  function ResetKey(configured: Option<string>): string
  {
    if TruthyStr(configured) then configured.value else DefaultResetKey
  }

  /** `resetSuperAdminPassword` handler: 400 for a missing field, 401 for a
      wrong key, each without a change; otherwise the model's reset runs and
      its failure becomes a 400. */
  method ResetSuperAdminPassword(db: Database, secretKey: Option<string>, newPassword: Option<string>,
                                 configured: Option<string>) returns (outcome: Outcome)
    modifies db
    ensures !TruthyStr(secretKey) || !TruthyStr(newPassword) ==>
              outcome == Fail("Secret key and new password are required", 400) && db.admins == old(db.admins)
    ensures TruthyStr(secretKey) && TruthyStr(newPassword) && secretKey.value != ResetKey(configured) ==>
              outcome == Fail("Invalid secret key", 401) && db.admins == old(db.admins)
    ensures outcome.Sent? <==>
              TruthyStr(secretKey) && TruthyStr(newPassword) && secretKey.value == ResetKey(configured) &&
              SuperAdmins(old(db.admins)) != {}
    ensures TruthyStr(secretKey) && TruthyStr(newPassword) && secretKey.value == ResetKey(configured) &&
            SuperAdmins(old(db.admins)) == {} ==>
              outcome == Fail(AdminModel.SuperAdminNotFound, 400) && db.admins == old(db.admins)
    ensures outcome.Sent? ==>
              outcome == Sent(200, AdminModel.SuperAdminReset) &&
              exists id :: id in SuperAdmins(old(db.admins)) &&
                           db.admins == AdminModel.WithPassword(old(db.admins), id, newPassword.value)
    ensures db.users == old(db.users) && db.tasks == old(db.tasks)
    ensures old(db.Valid()) ==> db.Valid()
  {
    if !TruthyStr(secretKey) || !TruthyStr(newPassword) {
      return Fail("Secret key and new password are required", 400);
    }
    var resetSecretKey := ResetKey(configured);
    if secretKey.value != resetSecretKey {
      return Fail("Invalid secret key", 401);
    }
    var success, message := AdminModel.ResetSuperAdminPassword(db, newPassword.value);
    if !success {
      return Fail(message, 400);
    }
    outcome := Sent(200, message);
  }
}
