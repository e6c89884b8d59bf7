/** The user-facing task handlers. Each loads the task named in the body,
    answers 404 when it is missing and 403 when the caller does not own it,
    and only then changes the store. The email each success sends is left
    out, but the lookup of the caller's address is kept: when the caller has
    no user record, reading `user.email` fails after the change was made and
    the handler answers 500. */
module TaskController {
  import opened JsValues
  import opened Store

  /** `res.status(status).json(...)`; `message` is empty when the body is a
      document rather than a message. */
  datatype Reply = Reply(status: int, message: string)

  const UserNotFound := Reply(404, "User not found")
  const TaskNotFound := Reply(404, "Task not found")
  const NotOwnerOfDeleted := Reply(403, "Not authorized to delete this task")
  const NotOwnerOfUpdated := Reply(403, "Not authorized to update this task")
  /** The `TypeError` of reading `email` from a `null` user. */
  const NullUserReply := Reply(500, "Cannot read properties of null (reading 'email')")

  /** The answer after a successful change: 200, unless the caller has no
      user record to send the email to. */
  function AfterChange(users: map<string, User>, callerId: string, message: string): Reply
  {
    if callerId in users then Reply(200, message) else NullUserReply
  }

  /** The task `addTask` stores: not completed, owned by the caller, and
      filed under 'others' when no category is given. */
  function NewTask(title: Option<string>, description: Option<string>, category: Option<string>, userId: string): Task
  {
    Task(title, description, if TruthyStr(category) then category.value else "others", false, userId)
  }

  /** The task a body id names, if the store holds it (`findById`). */
  predicate Names(tasks: map<string, Task>, id: Option<string>) {
    id.Some? && id.value in tasks
  }

  /** `addTask`: 404 without a change for an unknown caller, otherwise the
      new task is stored under the fresh id and nothing else changes. */
  function AddTaskOutcome(tasks: map<string, Task>, users: map<string, User>, callerId: string,
                          title: Option<string>, description: Option<string>, category: Option<string>,
                          newId: string): (r: (Reply, map<string, Task>))
    requires newId !in tasks
    ensures callerId !in users <==> r.0 == UserNotFound
    ensures callerId !in users ==> r.1 == tasks
    ensures callerId in users ==>
              r.0.status == 200 && r.1.Keys == tasks.Keys + {newId} &&
              r.1[newId] == NewTask(title, description, category, callerId) &&
              forall k :: k in tasks ==> r.1[k] == tasks[k]
  {
    if callerId !in users then (UserNotFound, tasks)
    else (Reply(200, ""), tasks[newId := NewTask(title, description, category, callerId)])
  }

  /** `removeTask`: 404, then 403, each without a change; otherwise exactly
      that task is deleted. */
  function RemoveTaskOutcome(tasks: map<string, Task>, users: map<string, User>, callerId: string, id: Option<string>)
    : (r: (Reply, map<string, Task>))
    ensures !Names(tasks, id) <==> r.0 == TaskNotFound
    ensures Names(tasks, id) && tasks[id.value].userId != callerId <==> r.0 == NotOwnerOfDeleted
    ensures r.0.status in {403, 404} ==> r.1 == tasks
    ensures r.1 != tasks ==> Names(tasks, id) && tasks[id.value].userId == callerId
    ensures Names(tasks, id) && tasks[id.value].userId == callerId ==>
              r.1 == tasks - {id.value} && r.0 == AfterChange(users, callerId, "Task deleted successfully")
  {
    if !Names(tasks, id) then (TaskNotFound, tasks)
    else if tasks[id.value].userId != callerId then (NotOwnerOfDeleted, tasks)
    else (AfterChange(users, callerId, "Task deleted successfully"), tasks - {id.value})
  }

  /** The fields `findByIdAndUpdate(id, { title, description, category })`
      writes: the ones the body defines. */
  function Edited(t: Task, title: Option<string>, description: Option<string>, category: Option<string>): Task
  {
    t.(title := if title.Some? then title else t.title,
       description := if description.Some? then description else t.description,
       category := if category.Some? then category.value else t.category)
  }

  /** The user update never moves a task to another owner or touches its
      completion; an empty body changes nothing, and repeating an update
      changes nothing more. */
  lemma EditedProperties(t: Task, title: Option<string>, description: Option<string>, category: Option<string>)
    ensures Edited(t, title, description, category).userId == t.userId
    ensures Edited(t, title, description, category).completed == t.completed
    ensures Edited(t, None, None, None) == t
    ensures Edited(Edited(t, title, description, category), title, description, category) == Edited(t, title, description, category)
  {
  }

  /** `updateTask`: 404, then 403, each without a change; otherwise only
      the named task's title, description and category are rewritten. */
  function UpdateTaskOutcome(tasks: map<string, Task>, users: map<string, User>, callerId: string, id: Option<string>,
                             title: Option<string>, description: Option<string>, category: Option<string>)
    : (r: (Reply, map<string, Task>))
    ensures !Names(tasks, id) <==> r.0 == TaskNotFound
    ensures Names(tasks, id) && tasks[id.value].userId != callerId <==> r.0 == NotOwnerOfUpdated
    ensures r.0.status in {403, 404} ==> r.1 == tasks
    ensures r.1 != tasks ==> Names(tasks, id) && tasks[id.value].userId == callerId
    ensures Names(tasks, id) && tasks[id.value].userId == callerId ==>
              r.1 == tasks[id.value := Edited(tasks[id.value], title, description, category)] &&
              r.0 == AfterChange(users, callerId, "")
  {
    if !Names(tasks, id) then (TaskNotFound, tasks)
    else if tasks[id.value].userId != callerId then (NotOwnerOfUpdated, tasks)
    else (AfterChange(users, callerId, ""), tasks[id.value := Edited(tasks[id.value], title, description, category)])
  }

  /** `markDone`: 404, then 403, each without a change; otherwise only the
      named task's `completed` flag flips. */
  function MarkDoneOutcome(tasks: map<string, Task>, users: map<string, User>, callerId: string, id: Option<string>)
    : (r: (Reply, map<string, Task>))
    ensures !Names(tasks, id) <==> r.0 == TaskNotFound
    ensures Names(tasks, id) && tasks[id.value].userId != callerId <==> r.0 == NotOwnerOfUpdated
    ensures r.0.status in {403, 404} ==> r.1 == tasks
    ensures Names(tasks, id) && tasks[id.value].userId == callerId ==>
              r.1.Keys == tasks.Keys &&
              r.1[id.value] == tasks[id.value].(completed := !tasks[id.value].completed) &&
              (forall k :: k in tasks && k != id.value ==> r.1[k] == tasks[k]) &&
              r.0 == AfterChange(users, callerId, "")
  {
    if !Names(tasks, id) then (TaskNotFound, tasks)
    else if tasks[id.value].userId != callerId then (NotOwnerOfUpdated, tasks)
    else
      var t := tasks[id.value];
      (AfterChange(users, callerId, ""), tasks[id.value := t.(completed := !t.completed)])
  }

  method AddTask(db: Database, callerId: string, title: Option<string>, description: Option<string>,
                 category: Option<string>, newId: string) returns (reply: Reply)
    requires newId !in db.tasks
    modifies db
    ensures (reply, db.tasks) == AddTaskOutcome(old(db.tasks), old(db.users), callerId, title, description, category, newId)
    ensures db.users == old(db.users) && db.admins == old(db.admins)
    ensures old(db.Valid()) ==> db.Valid()
  {
    if callerId !in db.users {
      return UserNotFound;
    }
    var task := NewTask(title, description, category, callerId);
    db.tasks := db.tasks[newId := task];
    reply := Reply(200, "");
  }

  method RemoveTask(db: Database, callerId: string, id: Option<string>) returns (reply: Reply)
    modifies db
    ensures (reply, db.tasks) == RemoveTaskOutcome(old(db.tasks), old(db.users), callerId, id)
    ensures db.users == old(db.users) && db.admins == old(db.admins)
    ensures old(db.Valid()) ==> db.Valid()
  {
    if id.None? || id.value !in db.tasks {
      return TaskNotFound;
    }
    var task := db.tasks[id.value];
    if task.userId != callerId {
      return NotOwnerOfDeleted;
    }
    var userFound := callerId in db.users;
    db.tasks := db.tasks - {id.value};
    reply := if userFound then Reply(200, "Task deleted successfully") else NullUserReply;
  }

  /** `getTask`: the caller's tasks, and only those. */
  method GetTask(db: Database, callerId: string) returns (reply: Reply, found: map<string, Task>)
    ensures reply.status == 200
    ensures forall k :: k in found <==> k in db.tasks && db.tasks[k].userId == callerId
    ensures forall k :: k in found ==> found[k] == db.tasks[k]
  {
    found := TasksOf(db.tasks, callerId);
    reply := Reply(200, "");
  }

  method UpdateTask(db: Database, callerId: string, id: Option<string>,
                    title: Option<string>, description: Option<string>, category: Option<string>) returns (reply: Reply)
    modifies db
    ensures (reply, db.tasks) == UpdateTaskOutcome(old(db.tasks), old(db.users), callerId, id, title, description, category)
    ensures db.users == old(db.users) && db.admins == old(db.admins)
    ensures old(db.Valid()) ==> db.Valid()
  {
    if id.None? || id.value !in db.tasks {
      return TaskNotFound;
    }
    var task := db.tasks[id.value];
    if task.userId != callerId {
      return NotOwnerOfUpdated;
    }
    db.tasks := db.tasks[id.value := Edited(task, title, description, category)];
    reply := AfterChange(db.users, callerId, "");
  }

  method MarkDone(db: Database, callerId: string, id: Option<string>) returns (reply: Reply)
    modifies db
    ensures (reply, db.tasks) == MarkDoneOutcome(old(db.tasks), old(db.users), callerId, id)
    ensures db.users == old(db.users) && db.admins == old(db.admins)
    ensures old(db.Valid()) ==> db.Valid()
  {
    if id.None? || id.value !in db.tasks {
      return TaskNotFound;
    }
    var task := db.tasks[id.value];
    if task.userId != callerId {
      return NotOwnerOfUpdated;
    }
    db.tasks := db.tasks[id.value := task.(completed := !task.completed)];
    reply := AfterChange(db.users, callerId, "");
  }

  /** Every handler keeps each task owned by a stored user. */
  lemma HandlersKeepTasksOwned(tasks: map<string, Task>, users: map<string, User>, callerId: string, id: Option<string>,
                               title: Option<string>, description: Option<string>, category: Option<string>, newId: string)
    requires TasksOwned(tasks, users)
    requires newId !in tasks
    ensures TasksOwned(AddTaskOutcome(tasks, users, callerId, title, description, category, newId).1, users)
    ensures TasksOwned(RemoveTaskOutcome(tasks, users, callerId, id).1, users)
    ensures TasksOwned(UpdateTaskOutcome(tasks, users, callerId, id, title, description, category).1, users)
    ensures TasksOwned(MarkDoneOutcome(tasks, users, callerId, id).1, users)
  {
  }

  /** While every task has a stored owner, a change that passed the
      ownership check is answered 200: the 500 after the change cannot
      happen. */
  lemma OwnedStoreAnswers200(tasks: map<string, Task>, users: map<string, User>, callerId: string, id: Option<string>)
    requires TasksOwned(tasks, users)
    requires Names(tasks, id) && tasks[id.value].userId == callerId
    ensures RemoveTaskOutcome(tasks, users, callerId, id).0.status == 200
    ensures MarkDoneOutcome(tasks, users, callerId, id).0.status == 200
    ensures forall title, description, category ::
              UpdateTaskOutcome(tasks, users, callerId, id, title, description, category).0.status == 200
  {
  }

  /** Marking a task done twice restores the store. */
  lemma MarkDoneTwice(tasks: map<string, Task>, users: map<string, User>, callerId: string, id: Option<string>)
    ensures MarkDoneOutcome(MarkDoneOutcome(tasks, users, callerId, id).1, users, callerId, id).1 == tasks
  {
    var once := MarkDoneOutcome(tasks, users, callerId, id).1;
    if Names(tasks, id) && tasks[id.value].userId == callerId {
      var twice := MarkDoneOutcome(once, users, callerId, id).1;
      assert twice.Keys == tasks.Keys;
      assert forall k :: k in tasks ==> twice[k] == tasks[k];
    }
  }

  /** Only the owner can change a task: any other caller leaves the store
      as it was. */
  lemma NonOwnerChangesNothing(tasks: map<string, Task>, users: map<string, User>, callerId: string, id: Option<string>,
                               title: Option<string>, description: Option<string>, category: Option<string>)
    requires Names(tasks, id) && tasks[id.value].userId != callerId
    ensures RemoveTaskOutcome(tasks, users, callerId, id).1 == tasks
    ensures UpdateTaskOutcome(tasks, users, callerId, id, title, description, category).1 == tasks
    ensures MarkDoneOutcome(tasks, users, callerId, id).1 == tasks
  {
  }
}
