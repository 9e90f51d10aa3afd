/**
 * The task-list page: the list transforms its handlers apply, and the page
 * state with one method per step of each handler. Every network reply is a
 * parameter; a handler that awaits a fetch between an optimistic change and
 * its confirmation is split into a Begin and a Finish method.
 */
module TasksPage {
  import opened Text
  import opened Wrappers
  import opened TaskModel

  // ---------------------------------------------------------------------
  // List transforms

  /** `prev.map(t => t.id === id ? { ...t, completed: !t.completed } : t)` */
  function ToggleById(s: seq<Task>, id: int): (r: seq<Task>)
    ensures |r| == |s|
    ensures forall i :: 0 <= i < |s| ==>
      r[i] == if s[i].id == id then s[i].(completed := !s[i].completed) else s[i]
  {
    if s == [] then []
    else
      var t := if s[0].id == id then s[0].(completed := !s[0].completed) else s[0];
      [t] + ToggleById(s[1..], id)
  }

  /** `prev.map(t => t.id === id ? task : t)` */
  function ReplaceById(s: seq<Task>, id: int, task: Task): (r: seq<Task>)
    ensures |r| == |s|
    ensures forall i :: 0 <= i < |s| ==> r[i] == if s[i].id == id then task else s[i]
  {
    if s == [] then []
    else [if s[0].id == id then task else s[0]] + ReplaceById(s[1..], id, task)
  }

  /** `a` is `b` with some elements left out, the rest in their order. */
  ghost predicate IsSubsequence<T>(a: seq<T>, b: seq<T>)
    decreases |b|
  {
    if a == [] then true
    else if b == [] then false
    else (a[0] == b[0] && IsSubsequence(a[1..], b[1..])) || IsSubsequence(a, b[1..])
  }

  /**
   * `p.filter(t => t.id !== id)`: no task with that id is left, every other
   * task keeps its multiplicity, and the survivors keep their order.
   */
  function RemoveById(s: seq<Task>, id: int): (r: seq<Task>)
    ensures forall i :: 0 <= i < |r| ==> r[i].id != id
    ensures forall x :: multiset(r)[x] == if x.id == id then 0 else multiset(s)[x]
    ensures IsSubsequence(r, s)
  {
    if s == [] then []
    else
      assert s == [s[0]] + s[1..];
      var rest := RemoveById(s[1..], id);
      if s[0].id != id then
        var r := [s[0]] + rest;
        assert r[1..] == rest;
        r
      else
        rest
  }

  /** `tasks.filter(t => t.completed).length` */
  function CountCompleted(s: seq<Task>): (n: nat)
    ensures n <= |s|
    ensures n == |s| <==> forall i :: 0 <= i < |s| ==> s[i].completed
    ensures n == 0 <==> forall i :: 0 <= i < |s| ==> !s[i].completed
  {
    if s == [] then 0
    else
      var rest := CountCompleted(s[1..]);
      assert forall i :: 1 <= i < |s| ==> s[i] == s[1..][i - 1];
      (if s[0].completed then 1 else 0) + rest
  }

  /** Toggling the same id twice gives back the list. */
  lemma ToggleTwice(s: seq<Task>, id: int)
    ensures ToggleById(ToggleById(s, id), id) == s
  {
  }

  /**
   * A failed toggle's rollback gives back the list the toggle started from
   * when every entry with that id equalled the snapshot the toggle was given.
   */
  lemma ToggleThenRollback(s: seq<Task>, task: Task)
    requires forall i :: 0 <= i < |s| && s[i].id == task.id ==> s[i] == task
    ensures ReplaceById(ToggleById(s, task.id), task.id, task) == s
  {
  }

  /** With one task of that id, a toggle moves the completed count by exactly one. */
  lemma {:induction false} CountAfterToggle(s: seq<Task>, id: int, k: nat)
    requires k < |s| && s[k].id == id
    requires forall i :: 0 <= i < |s| && i != k ==> s[i].id != id
    ensures CountCompleted(ToggleById(s, id)) == CountCompleted(s) + (if s[k].completed then -1 else 1)
  {
    var r := ToggleById(s, id);
    assert r[1..] == ToggleById(s[1..], id);
    if k == 0 {
      assert ToggleById(s[1..], id) == s[1..] by {
        assert forall i :: 0 <= i < |s| - 1 ==> s[1..][i] == s[i + 1];
      }
    } else {
      CountAfterToggle(s[1..], id, k - 1);
    }
  }

  // ---------------------------------------------------------------------
  // Requests and replies

  /** The body `addTask` posts. `dueDate` is the trimmed datetime-local text. */
  datatype CreateRequest = CreateRequest(title: string, description: Option<string>, dueDate: Option<string>)

  /** The body `toggleTask` sends with `PATCH /api/tasks/{id}`. */
  datatype PatchRequest = PatchRequest(id: int, completed: bool)

  /** How a fetch whose reply body the handler reads ends. */
  datatype Reply<T> =
    | Ok(value: T)                       // `res.ok`, body decoded
    | Failed(message: Option<string>)    // `!res.ok`; the `message` field of the error body, if any
    | Thrown(message: Option<string>)    // fetch or JSON decoding rejected with this error message

  /** How a fetch whose reply body the handler ignores ends. */
  datatype Ack = Accepted | Refused | NetworkError

  const LoadFailed := "Gagal memuat tasks"
  const AddFailed := "Gagal menambah task"
  const SomethingWentWrong := "Terjadi error"
  const ToggleFailed := "Gagal update status task"
  const DeleteFailed := "Gagal menghapus task"

  /**
   * What `addTask` sends for the current drafts: nothing when the title is
   * all whitespace, otherwise the trimmed title, and the trimmed description
   * and due date, each absent when blank.
   */
  function DraftRequest(title: string, description: string, dueDate: string): (r: Option<CreateRequest>)
    ensures r.None? <==> AllSpace(title)
    ensures r.Some? ==> r.value.title == Trim(title) && r.value.title != [] && Trimmed(r.value.title)
    ensures r.Some? ==> (r.value.description.None? <==> AllSpace(description))
    ensures r.Some? ==> (r.value.dueDate.None? <==> AllSpace(dueDate))
    ensures r.Some? ==>
      && Some(r.value.title) == NonBlank(title)
      && r.value.description == NonBlank(description)
      && r.value.dueDate == NonBlank(dueDate)
  {
    match NonBlank(title)
    case None => None
    case Some(t) => Some(CreateRequest(t, NonBlank(description), NonBlank(dueDate)))
  }

  // ---------------------------------------------------------------------
  // Page state

  class TasksPageState {
    var tasks: seq<Task>
    var title: string
    var description: string
    var dueDate: string
    var loading: bool
    var submitting: bool
    var error: Option<string>

    /** The initial `useState` values: no tasks, empty drafts, loading, no error. */
    constructor ()
      ensures tasks == [] && title == "" && description == "" && dueDate == ""
      ensures loading && !submitting && error == None
    {
      tasks, title, description, dueDate := [], "", "", "";
      loading, submitting, error := true, false, None;
    }

    /** The `completedCount` memo, shown as "completed/total". */
    function CompletedCount(): (n: nat)
      reads this
      ensures n <= |tasks|
      ensures n == |tasks| <==> forall i :: 0 <= i < |tasks| ==> tasks[i].completed
    {
      CountCompleted(tasks)
    }

    /**
     * First step of `loadTasks`: clear the error and show the loading
     * state while the list is fetched.
     */
    method BeginLoad()
      modifies this
      ensures loading && error == None && tasks == old(tasks)
      ensures title == old(title) && description == old(description) && dueDate == old(dueDate)
      ensures submitting == old(submitting)
    {
      error := None;
      loading := true;
    }

    /**
     * Second step of `loadTasks`: a decoded list replaces the tasks; any
     * failure keeps the old list and shows an error. Loading is over
     * afterwards either way.
     */
    method FinishLoad(reply: Reply<seq<Task>>)
      modifies this
      ensures !loading
      ensures title == old(title) && description == old(description) && dueDate == old(dueDate)
      ensures submitting == old(submitting)
      ensures reply.Ok? ==> tasks == reply.value && error == old(error)
      ensures reply.Failed? ==> tasks == old(tasks) && error == Some(LoadFailed)
      ensures reply.Thrown? ==> tasks == old(tasks) && error == Some(reply.message.GetOr(SomethingWentWrong))
    {
      match reply {
        case Ok(data) =>
          tasks := data;
        case Failed(_) =>
          error := Some(LoadFailed);
        case Thrown(message) =>
          error := Some(message.GetOr(SomethingWentWrong));
      }
      loading := false;
    }

    /**
     * First step of `addTask`. With an all-whitespace title nothing is sent
     * and nothing changes. Otherwise the request for the drafts is sent,
     * submitting starts and the error is cleared.
     */
    method BeginAdd() returns (sent: Option<CreateRequest>)
      modifies this
      ensures sent == DraftRequest(old(title), old(description), old(dueDate))
      ensures sent.None? ==> unchanged(this)
      ensures sent.Some? ==>
        && submitting && error == None
        && tasks == old(tasks) && loading == old(loading)
        && title == old(title) && description == old(description) && dueDate == old(dueDate)
    {
      sent := DraftRequest(title, description, dueDate);
      if sent.Some? {
        submitting := true;
        error := None;
      }
    }

    /**
     * Second step of `addTask`: the created task is prepended and the drafts
     * cleared; on failure the list and the drafts stay and the error is
     * shown. Submitting is over afterwards either way.
     */
    method FinishAdd(reply: Reply<Task>)
      modifies this
      ensures !submitting && loading == old(loading)
      ensures reply.Ok? ==>
        && tasks == [reply.value] + old(tasks)
        && title == "" && description == "" && dueDate == ""
        && error == old(error)
      ensures !reply.Ok? ==>
        && tasks == old(tasks)
        && title == old(title) && description == old(description) && dueDate == old(dueDate)
      ensures reply.Failed? ==> error == Some(reply.message.GetOr(AddFailed))
      ensures reply.Thrown? ==> error == Some(reply.message.GetOr(SomethingWentWrong))
    {
      match reply {
        case Ok(created) =>
          tasks := [created] + tasks;
          title, description, dueDate := "", "", "";
        case Failed(message) =>
          error := Some(message.GetOr(AddFailed));
        case Thrown(message) =>
          error := Some(message.GetOr(SomethingWentWrong));
      }
      submitting := false;
    }

    /**
     * First step of `toggleTask(task)`: clear the error, flip `completed` on
     * every task with that id at once, and send the negation of the
     * snapshot's flag.
     */
    method BeginToggle(task: Task) returns (patch: PatchRequest)
      modifies this
      ensures patch == PatchRequest(task.id, !task.completed)
      ensures tasks == ToggleById(old(tasks), task.id) && error == None
      ensures title == old(title) && description == old(description) && dueDate == old(dueDate)
      ensures loading == old(loading) && submitting == old(submitting)
    {
      error := None;
      tasks := ToggleById(tasks, task.id);
      patch := PatchRequest(task.id, !task.completed);
    }

    /**
     * Second step of `toggleTask(task)`. A refused update puts the snapshot
     * back in place of every task with its id and shows an error. An
     * accepted one keeps the optimistic state; so does a fetch that rejects,
     * because the handler has no catch.
     */
    method FinishToggle(task: Task, ack: Ack)
      modifies this
      ensures ack.Refused? ==> tasks == ReplaceById(old(tasks), task.id, task) && error == Some(ToggleFailed)
      ensures !ack.Refused? ==> tasks == old(tasks) && error == old(error)
      ensures title == old(title) && description == old(description) && dueDate == old(dueDate)
      ensures loading == old(loading) && submitting == old(submitting)
    {
      if ack.Refused? {
        tasks := ReplaceById(tasks, task.id, task);
        error := Some(ToggleFailed);
      }
    }

    /**
     * First step of `deleteTask(id)`: clear the error, keep the whole list as
     * the snapshot, and drop every task with that id at once.
     */
    method BeginDelete(id: int) returns (snapshot: seq<Task>)
      modifies this
      ensures snapshot == old(tasks)
      ensures tasks == RemoveById(old(tasks), id) && error == None
      ensures title == old(title) && description == old(description) && dueDate == old(dueDate)
      ensures loading == old(loading) && submitting == old(submitting)
    {
      error := None;
      snapshot := tasks;
      tasks := RemoveById(tasks, id);
    }

    /**
     * Second step of `deleteTask(id)`. A refused delete restores the whole
     * snapshot and shows an error; otherwise the state stays as it is.
     */
    method FinishDelete(snapshot: seq<Task>, ack: Ack)
      modifies this
      ensures ack.Refused? ==> tasks == snapshot && error == Some(DeleteFailed)
      ensures !ack.Refused? ==> tasks == old(tasks) && error == old(error)
      ensures title == old(title) && description == old(description) && dueDate == old(dueDate)
      ensures loading == old(loading) && submitting == old(submitting)
    {
      if ack.Refused? {
        tasks := snapshot;
        error := Some(DeleteFailed);
      }
    }
  }

  // ---------------------------------------------------------------------
  // What a caller can conclude from the contracts alone

  /** A task that was not completed and whose update is refused shows as not completed, with an error. */
  method ToggleRefusedScenario(t: Task, others: seq<Task>)
    requires !t.completed
    requires forall i :: 0 <= i < |others| ==> others[i].id != t.id
  {
    var page := new TasksPageState();
    page.BeginLoad();
    page.FinishLoad(Ok([t] + others));
    var before := page.tasks;
    var patch := page.BeginToggle(t);
    assert patch.completed;
    assert page.tasks[0].completed;
    page.FinishToggle(t, Refused);
    ToggleThenRollback(before, t);
    assert page.tasks == before && !page.tasks[0].completed;
    assert page.error.Some? && page.error.value != "";
  }

  /** Deleting the middle of three tasks and having it refused leaves all three, in order. */
  method DeleteRefusedScenario(a: Task, b: Task, c: Task)
  {
    var page := new TasksPageState();
    page.BeginLoad();
    page.FinishLoad(Ok([a, b, c]));
    var snapshot := page.BeginDelete(b.id);
    assert forall i :: 0 <= i < |page.tasks| ==> page.tasks[i].id != b.id;
    page.FinishDelete(snapshot, Refused);
    assert page.tasks == [a, b, c];
    assert page.error == Some(DeleteFailed);
  }
}
