/**
 * The task form: the status rule applied on every change, the validation
 * run on submit, and the routing of a valid submit to an edit or an add.
 */
module TaskForm {
  import opened Wrappers
  import opened Text
  import opened TaskSlice

  /** `INITIALSTATE`; its `null` id is 0 here (both are falsy), and it carries no user id (0). */
  const InitialTask: Task := Task(0, 0, "", "", "", Pending, 0, false)

  /** One `onChange` event: the input's `name` and its `value`. */
  datatype Change =
    | SetTitle(title: string)
    | SetDescription(description: string)
    | SetDueDate(dueDate: string)
    | SetStatus(status: string)
    | SetProgress(progress: int)

  /** `getTaskPropertiesByStatus`: the progress and completion a newly chosen status forces. */
  function StatusProperties(status: string, currentProgress: int): (r: (int, bool))
    ensures r.1 <==> status == Completed
    ensures status == Completed ==> r.0 == 100
    ensures status == Pending ==> r.0 == 0
    ensures status != Completed && status != Pending ==> r.0 == currentProgress
  {
    (if status == Completed then 100 else if status == Pending then 0 else currentProgress,
     status == Completed)
  }

  /**
   * `handleChange`: the named field takes the value; a status change also
   * forces progress and completion; no other field changes.
   */
  function ApplyChange(t: Task, c: Change): (r: Task)
    ensures c == SetStatus(Completed) ==> r.status == Completed && r.progress == 100 && r.completed
    ensures c == SetStatus(Pending) ==> r.status == Pending && r.progress == 0 && !r.completed
    ensures c.SetStatus? && c.status != Completed && c.status != Pending ==>
      r.status == c.status && r.progress == t.progress && !r.completed
    ensures c.SetStatus? ==> SameIdentity(r, t)
    ensures c.SetTitle? ==> r.title == c.title && r.(title := t.title) == t
    ensures c.SetDescription? ==> r.description == c.description && r.(description := t.description) == t
    ensures c.SetDueDate? ==> r.dueDate == c.dueDate && r.(dueDate := t.dueDate) == t
    ensures c.SetProgress? ==> r.progress == c.progress && r.(progress := t.progress) == t
  {
    match c
    case SetTitle(v) => t.(title := v)
    case SetDescription(v) => t.(description := v)
    case SetDueDate(v) => t.(dueDate := v)
    case SetProgress(v) => t.(progress := v)
    case SetStatus(v) =>
      var (progress, completed) := StatusProperties(v, t.progress);
      t.(status := v, progress := progress, completed := completed)
  }

  /**
   * Choosing "completed" or "pending" in the form leaves the task settled;
   * choosing "in-progress" keeps the current progress, so the task is
   * well formed only when that progress lies strictly between 0 and 100.
   */
  lemma StatusChangeSettles(t: Task, status: string)
    ensures status == Completed || status == Pending ==> Settled(ApplyChange(t, SetStatus(status)))
    ensures status == InProgress ==>
      (WellFormed(ApplyChange(t, SetStatus(status))) <==> 1 <= t.progress <= 99)
  {
  }

  const TitleRequired: string := "Title is required"
  const DueDateRequired: string := "Due date is required"

  /** The error map `validateForm` builds: one entry per failing check, keyed by the field. */
  function ValidationErrors(t: Task): (errors: map<string, string>)
    ensures "title" in errors <==> IsBlank(t.title)
    ensures "dueDate" in errors <==> t.dueDate == ""
    ensures errors.Keys <= {"title", "dueDate"}
    ensures "title" in errors ==> errors["title"] == TitleRequired
    ensures "dueDate" in errors ==> errors["dueDate"] == DueDateRequired
  {
    var e0: map<string, string> := map[];
    var e1 := if IsBlank(t.title) then e0["title" := TitleRequired] else e0;
    if t.dueDate == "" then e1["dueDate" := DueDateRequired] else e1
  }

  /** The form is valid exactly when the trimmed title and the due date are both non-empty. */
  lemma ValidIff(t: Task)
    ensures ValidationErrors(t) == map[] <==> !IsBlank(t.title) && t.dueDate != ""
  {
    if IsBlank(t.title) {
      assert "title" in ValidationErrors(t);
    }
    if t.dueDate == "" {
      assert "dueDate" in ValidationErrors(t);
    }
  }

  /** The parent callback a submit calls. */
  datatype Submission = AddCall(task: Task) | EditCall(task: Task)

  /** JavaScript truthiness of an id; `null` is 0 here. */
  predicate HasId(t: Task) {
    t.id != 0
  }

  /** `handleSubmit`: nothing when invalid, else `editTask` for a task with an id and `addTask` otherwise. */
  function SubmitRoute(t: Task): (r: Option<Submission>)
    ensures r.None? <==> IsBlank(t.title) || t.dueDate == ""
    ensures r.Some? ==> r.value.task == t
    ensures r.Some? ==> (r.value.EditCall? <==> HasId(t))
  {
    ValidIff(t);
    if ValidationErrors(t) != map[] then None
    else if HasId(t) then Some(EditCall(t))
    else Some(AddCall(t))
  }

  /** The form's state: the task being edited and the current error map. */
  class Form {
    var task: Task
    var errors: map<string, string>

    constructor ()
      ensures task == InitialTask && errors == map[]
    {
      task := InitialTask;
      errors := map[];
    }

    /** The effect that loads `taskToEdit` into the form when one is given. */
    method Populate(taskToEdit: Option<Task>)
      modifies this`task
      ensures taskToEdit.Some? ==> task == taskToEdit.value
      ensures taskToEdit.None? ==> task == old(task)
    {
      if taskToEdit.Some? {
        task := taskToEdit.value;
      }
    }

    method HandleChange(c: Change)
      modifies this`task
      ensures task == ApplyChange(old(task), c)
    {
      task := ApplyChange(task, c);
    }

    /** `validateForm`: rebuilds the error map check by check and reports whether it is empty. */
    method ValidateForm() returns (ok: bool)
      modifies this`errors
      ensures errors == ValidationErrors(task)
      ensures ok <==> !IsBlank(task.title) && task.dueDate != ""
    {
      var errs: map<string, string> := map[];
      if IsBlank(task.title) {
        errs := errs["title" := TitleRequired];
      }
      if task.dueDate == "" {
        errs := errs["dueDate" := DueDateRequired];
      }
      errors := errs;
      ok := |errs| == 0;
      ValidIff(task);
    }

    /** `closeForm`, as far as the form's own state goes. */
    method CloseForm()
      modifies this
      ensures task == InitialTask && errors == map[]
    {
      task := InitialTask;
      errors := map[];
    }

    /**
     * `handleSubmit`: an invalid form keeps its task and shows its errors;
     * a valid one reports which callback receives the task, then resets.
     */
    method HandleSubmit() returns (call: Option<Submission>)
      modifies this
      ensures call == SubmitRoute(old(task))
      ensures call.None? ==> task == old(task) && errors == ValidationErrors(old(task))
      ensures call.Some? ==> task == InitialTask && errors == map[]
    {
      var ok := ValidateForm();
      if !ok {
        return None;
      }
      call := if HasId(task) then Some(EditCall(task)) else Some(AddCall(task));
      CloseForm();
    }
  }
}
