/** The client's `taskReducer`: a pure transformer of the task list held
    in the React state, one case per action type. */
module TaskReducer {
  /** A task as the client holds it; `id` is the document's `_id`. */
  datatype ClientTask = ClientTask(id: string, title: string, description: string, category: string, completed: bool)

  /** The dispatched actions; `Unknown` stands for any other `type`. */
  datatype Action =
    | SetTask(payload: seq<ClientTask>)
    | AddTask(task: ClientTask)
    | RemoveTask(id: string)
    | UpdateTask(task: ClientTask)
    | MarkDone(id: string)
    | Unknown

  /** `state.filter((task) => task._id !== id)`. */
  function WithoutId(tasks: seq<ClientTask>, id: string): (r: seq<ClientTask>)
    ensures |r| <= |tasks|
    ensures forall t :: t in r <==> t in tasks && t.id != id
    decreases |tasks|
  {
    if tasks == [] then []
    else if tasks[0].id != id then [tasks[0]] + WithoutId(tasks[1..], id)
    else WithoutId(tasks[1..], id)
  }

  /** `state.map((task) => task._id === payload._id ? payload : task)`. */
  function Replaced(tasks: seq<ClientTask>, payload: ClientTask): (r: seq<ClientTask>)
    ensures |r| == |tasks|
    ensures forall i :: 0 <= i < |tasks| ==> r[i].id == tasks[i].id
    ensures forall i :: 0 <= i < |tasks| && tasks[i].id == payload.id ==> r[i] == payload
    ensures forall i :: 0 <= i < |tasks| && tasks[i].id != payload.id ==> r[i] == tasks[i]
    decreases |tasks|
  {
    if tasks == [] then []
    else [if tasks[0].id == payload.id then payload else tasks[0]] + Replaced(tasks[1..], payload)
  }

  /** `state.map((task) => task._id === id ? { ...task, completed: !task.completed } : task)`. */
  function Toggled(tasks: seq<ClientTask>, id: string): (r: seq<ClientTask>)
    ensures |r| == |tasks|
    ensures forall i :: 0 <= i < |tasks| && tasks[i].id == id ==>
                          r[i] == tasks[i].(completed := !tasks[i].completed)
    ensures forall i :: 0 <= i < |tasks| && tasks[i].id != id ==> r[i] == tasks[i]
    decreases |tasks|
  {
    if tasks == [] then []
    else [if tasks[0].id == id then tasks[0].(completed := !tasks[0].completed) else tasks[0]] + Toggled(tasks[1..], id)
  }

  /** `taskReducer(state, action)`. */
  function Reduce(state: seq<ClientTask>, action: Action): (r: seq<ClientTask>)
    ensures action.AddTask? ==> |r| == |state| + 1
    ensures action.RemoveTask? ==> |r| <= |state|
    ensures action.UpdateTask? || action.MarkDone? ==> |r| == |state|
  {
    match action
    case SetTask(payload) => payload
    case AddTask(task) => state + [task]
    case RemoveTask(id) => WithoutId(state, id)
    case UpdateTask(task) => Replaced(state, task)
    case MarkDone(id) => Toggled(state, id)
    case Unknown => state
  }

  /** SET_TASK replaces the list whatever it held. */
  lemma SetIgnoresState(state: seq<ClientTask>, other: seq<ClientTask>, payload: seq<ClientTask>)
    ensures Reduce(state, SetTask(payload)) == Reduce(other, SetTask(payload)) == payload
  {
  }

  /** ADD_TASK appends at the end: the old list is a prefix and the new
      task is last. */
  lemma AddAppends(state: seq<ClientTask>, task: ClientTask)
    ensures var r := Reduce(state, AddTask(task));
            |r| == |state| + 1 && r[..|state|] == state && r[|state|] == task
  {
    var r := Reduce(state, AddTask(task));
    assert r[..|state|] == state;
  }

  /** REMOVE_TASK keeps the order of what it keeps: filtering a
      concatenation filters each part. */
  lemma {:induction false} WithoutIdDistributes(a: seq<ClientTask>, b: seq<ClientTask>, id: string)
    ensures WithoutId(a + b, id) == WithoutId(a, id) + WithoutId(b, id)
    decreases |a|
  {
    if a == [] {
      assert a + b == b;
    } else {
      assert (a + b)[0] == a[0];
      assert (a + b)[1..] == a[1..] + b;
      WithoutIdDistributes(a[1..], b, id);
    }
  }

  /** REMOVE_TASK of an id no task has leaves the list as it is. */
  lemma {:induction false} WithoutAbsentId(tasks: seq<ClientTask>, id: string)
    requires forall t :: t in tasks ==> t.id != id
    ensures WithoutId(tasks, id) == tasks
    decreases |tasks|
  {
    if tasks != [] {
      assert tasks[0] in tasks;
      WithoutAbsentId(tasks[1..], id);
      assert [tasks[0]] + tasks[1..] == tasks;
    }
  }

  /** REMOVE_TASK drops exactly the tasks with that id, keeps every other
      one, and undoes an ADD_TASK of a task with a fresh id. */
  lemma RemoveDropsExactly(state: seq<ClientTask>, task: ClientTask)
    requires forall t :: t in state ==> t.id != task.id
    ensures forall t :: t in Reduce(state, RemoveTask(task.id)) <==> t in state && t.id != task.id
    ensures Reduce(Reduce(state, AddTask(task)), RemoveTask(task.id)) == state
  {
    WithoutIdDistributes(state, [task], task.id);
    WithoutAbsentId(state, task.id);
    assert WithoutId([task], task.id) == [];
  }

  /** UPDATE_TASK keeps the length and every id in place, puts the payload
      where its id was, and applying it again changes nothing. */
  lemma UpdateProperties(state: seq<ClientTask>, task: ClientTask)
    ensures |Reduce(state, UpdateTask(task))| == |state|
    ensures forall i :: 0 <= i < |state| ==> Reduce(state, UpdateTask(task))[i].id == state[i].id
    ensures (exists i :: 0 <= i < |state| && state[i].id == task.id) ==> task in Reduce(state, UpdateTask(task))
    ensures Reduce(Reduce(state, UpdateTask(task)), UpdateTask(task)) == Reduce(state, UpdateTask(task))
  {
    var once := Reduce(state, UpdateTask(task));
    if exists i :: 0 <= i < |state| && state[i].id == task.id {
      var i :| 0 <= i < |state| && state[i].id == task.id;
      assert once[i] == task;
    }
    var twice := Reduce(once, UpdateTask(task));
    assert forall i :: 0 <= i < |once| ==> twice[i] == once[i];
  }

  /** MARK_DONE twice with the same id restores the list. */
  lemma MarkDoneTwice(state: seq<ClientTask>, id: string)
    ensures Reduce(Reduce(state, MarkDone(id)), MarkDone(id)) == state
  {
    var once := Reduce(state, MarkDone(id));
    var twice := Reduce(once, MarkDone(id));
    assert forall i :: 0 <= i < |state| ==> twice[i] == state[i];
  }

  /** MARK_DONE flips `completed` on the matching tasks and touches nothing else. */
  lemma MarkDoneFlipsOnlyMatching(state: seq<ClientTask>, id: string, i: int)
    requires 0 <= i < |state|
    ensures Reduce(state, MarkDone(id))[i].completed == (if state[i].id == id then !state[i].completed else state[i].completed)
    ensures Reduce(state, MarkDone(id))[i].(completed := state[i].completed) == state[i]
  {
  }

  /** An action of any other type returns the state unchanged. */
  lemma UnknownIsIdentity(state: seq<ClientTask>)
    ensures Reduce(state, Unknown) == state
  {
  }
}
