/**
 * The controller hook between the form, the list and the store: the guards
 * that decide which store actions are dispatched, and the update payload a
 * completion toggle sends to the task service.
 */
module UseTasks {
  import opened Wrappers
  import opened Text
  import opened TaskSlice
  import opened TaskForm
  import opened InfiniteScroll

  /** The page size the task list is paginated with. */
  const ItemsPerPage: nat := 10

  /**
   * The paginated list after the first render: the hook's scroll state over
   * the displayed tasks, ten per page, already sliced once. At most the first
   * ten tasks are shown, and there is more exactly when there are more than ten.
   */
  method PaginateTasks(displayedTasks: seq<Task>) returns (s: ScrollState<Task>)
    ensures fresh(s) && s.Valid()
    ensures s.itemsPerPage == ItemsPerPage && s.page == 1 && !s.isLoadingMore
    ensures s.displayedItems == displayedTasks[..Min(ItemsPerPage, |displayedTasks|)]
    ensures s.hasMore <==> |displayedTasks| > ItemsPerPage
  {
    s := new ScrollState<Task>(ItemsPerPage);
    s.Recompute(Some(displayedTasks));
  }

  /** The store actions the hook dispatches. */
  datatype Action =
    | FetchTasks
    | AddTaskAsync(task: Task)
    | UpdateTaskAsync(task: Task)
    | DeleteTaskAsync(id: int)
    | SearchTasks(term: string)
    | FilterTasks(filter: string)
    | ToggleTaskCompletion(id: int)

  /** The fetch effect: a fetch is dispatched exactly when the store holds no task. */
  function FetchOnLoad(tasks: seq<Task>): (actions: seq<Action>)
    ensures tasks == [] ==> actions == [FetchTasks]
    ensures tasks != [] ==> actions == []
    ensures FetchTasks in actions <==> |tasks| == 0
  {
    if |tasks| == 0 then [FetchTasks] else []
  }

  /** `addTask`: dispatches the add exactly when the trimmed title is non-empty. */
  function AddTask(task: Task): (actions: seq<Action>)
    ensures IsBlank(task.title) ==> actions == []
    ensures !IsBlank(task.title) ==> actions == [AddTaskAsync(task)]
    ensures forall a :: a in actions ==> a == AddTaskAsync(task)
  {
    if !IsBlank(task.title) then [AddTaskAsync(task)] else []
  }

  /**
   * The task `toggleCheckTask` sends to the service, computed from the
   * pre-toggle snapshot; it is the task the local toggle produces.
   */
  function TogglePayload(task: Task): (p: Task)
    ensures p == Toggled(task)
  {
    task.(completed := !task.completed,
          status := if !task.completed then Completed else Pending,
          progress := if !task.completed then 100 else 0)
  }

  /**
   * `toggleCheckTask`: the local toggle first, then, when the snapshot holds
   * the id, an update whose payload is what the local toggle produced.
   */
  function ToggleCheckTask(tasks: seq<Task>, id: int): (actions: seq<Action>)
    ensures |actions| >= 1 && actions[0] == ToggleTaskCompletion(id)
    ensures |actions| == 2 <==> FindIndex(tasks, id).Some?
    ensures |actions| <= 2
    ensures |actions| == 2 ==>
      actions[1] == UpdateTaskAsync(ToggleFirst(tasks, id)[FindIndex(tasks, id).value])
  {
    match FindIndex(tasks, id)
    case None => [ToggleTaskCompletion(id)]
    case Some(i) => [ToggleTaskCompletion(id), UpdateTaskAsync(TogglePayload(tasks[i]))]
  }

  /**
   * A valid add from the form passes the hook's guard: the add the form
   * routes is always dispatched.
   */
  lemma FormAddIsDispatched(t: Task)
    requires SubmitRoute(t) == Some(AddCall(t))
    ensures AddTask(t) == [AddTaskAsync(t)]
  {
  }

  /**
   * When the service echoes the update body, the update that follows the
   * local toggle leaves the toggled task as the toggle left it, except for
   * the `userId` that the request body fixes to 1.
   */
  lemma EchoedToggleUpdate(tasks: seq<Task>, id: int)
    requires FindIndex(tasks, id).Some?
    ensures var i := FindIndex(tasks, id).value;
      var local := ToggleFirst(tasks, id);
      var payload := Merge(TogglePayload(tasks[i]), UpdateBody(TogglePayload(tasks[i])));
      ReplaceFirst(local, payload) == local[i := local[i].(userId := 1)]
  {
    var i := FindIndex(tasks, id).value;
    ToggleFirstKeepsIds(tasks, id, id);
    EchoedUpdate(TogglePayload(tasks[i]));
  }

  /**
   * The store after one `toggleCheckTask` whose update the service answers
   * with an echo: the pending and fulfilled cases run after the local toggle,
   * and the store ends as the local toggle left it up to the `userId`.
   */
  method ToggleCheckRoundTrip(store: TaskStore, id: int)
    modifies store
    ensures store.tasks == (
      var local := ToggleFirst(old(store.tasks), id);
      match FindIndex(old(store.tasks), id)
      case None => local
      case Some(i) => local[i := local[i].(userId := 1)])
    ensures store.displayedTasks == store.tasks
    ensures FindIndex(old(store.tasks), id).Some? ==> !store.isLoading && store.error == None
  {
    var actions := ToggleCheckTask(store.tasks, id);
    ghost var before := store.tasks;
    store.ToggleTaskCompletion(id);
    if |actions| == 2 {
      var payload := actions[1].task;
      var i := FindIndex(before, id).value;
      assert payload == TogglePayload(before[i]);
      EchoedToggleUpdate(before, id);
      ToggleFirstKeepsIds(before, id, id);
      store.UpdatePending();
      store.UpdateFulfilled(Merge(payload, UpdateBody(payload)));
    }
  }
}
