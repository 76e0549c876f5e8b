/**
 * The task store: the records it holds, the decoration applied to records
 * that come back from the task service, the projections that search and
 * filter compute, and the store itself, one method per reducer case.
 */
module TaskSlice {
  import opened Wrappers
  import opened Text
  import opened Seqs

  /** A task as the store and the form hold it. */
  datatype Task = Task(
    id: int,
    userId: int,
    title: string,
    description: string,
    dueDate: string,
    status: string,
    progress: int,
    completed: bool)

  /** A record as the task service returns it, before decoration. */
  datatype RawTask = RawTask(id: int, userId: int, title: string, completed: bool)

  /**
   * The random choices and the clock reading that decorating one record uses:
   * the index drawn from `["pending", "in-progress"]`, the value
   * `Math.floor(Math.random() * 99)` and the ISO date string of the due date.
   */
  datatype Draw = Draw(statusPick: nat, progressRoll: nat, dueDate: string)

  /** The values `Math.floor(Math.random() * n)` can take. */
  predicate ValidDraw(d: Draw) {
    d.statusPick < 2 && d.progressRoll < 99
  }

  const Completed: string := "completed"
  const Pending: string := "pending"
  const InProgress: string := "in-progress"

  /** The status values a record is decorated with when it is not completed. */
  const OpenStatuses: seq<string> := [Pending, InProgress]

  /** The relationship between `status`, `progress` and `completed` that decorated records have. */
  predicate WellFormed(t: Task) {
    && (t.status == Completed || t.status == Pending || t.status == InProgress)
    && (t.completed <==> t.status == Completed)
    && (t.status == Completed ==> t.progress == 100)
    && (t.status == Pending ==> t.progress == 0)
    && (t.status == InProgress ==> 1 <= t.progress <= 99)
  }

  /** The two states a completion toggle leaves a task in: completed at 100, or pending at 0. */
  predicate Settled(t: Task) {
    if t.completed then t.status == Completed && t.progress == 100
    else t.status == Pending && t.progress == 0
  }

  /** `a` and `b` agree on every field that toggling and status edits leave alone. */
  predicate SameIdentity(a: Task, b: Task) {
    a.id == b.id && a.userId == b.userId && a.title == b.title
    && a.description == b.description && a.dueDate == b.dueDate
  }

  // ---------------------------------------------------------------------------
  // Decoration of service records (enhanceTaskData)
  // ---------------------------------------------------------------------------

  /**
   * `enhanceTaskData`: keeps the service fields, adds a description and a due
   * date, and chooses a status and a progress consistent with `completed`.
   */
  function Enhance(raw: RawTask, d: Draw): (t: Task)
    requires ValidDraw(d)
    ensures t.id == raw.id && t.userId == raw.userId && t.title == raw.title && t.completed == raw.completed
    ensures t.description == "Task description for " + raw.title
    ensures t.dueDate == d.dueDate
    ensures raw.completed ==> t.status == Completed && t.progress == 100
    ensures !raw.completed ==> t.status == OpenStatuses[d.statusPick]
    ensures t.status == Pending ==> t.progress == 0
    ensures t.status == InProgress ==> t.progress == d.progressRoll + 1
    ensures WellFormed(t)
  {
    var status := if raw.completed then Completed else OpenStatuses[d.statusPick];
    var progress :=
      if status == Completed then 100
      else if status == InProgress then d.progressRoll + 1
      else 0;
    Task(raw.id, raw.userId, raw.title, "Task description for " + raw.title, d.dueDate, status, progress, raw.completed)
  }

  /** The payload of a fulfilled fetch: `data.map(enhanceTaskData)`, one draw per record. */
  function FetchPayload(data: seq<RawTask>, draws: seq<Draw>): (ts: seq<Task>)
    requires |draws| == |data|
    requires forall i :: 0 <= i < |draws| ==> ValidDraw(draws[i])
    ensures |ts| == |data|
    ensures forall i :: 0 <= i < |ts| ==> ts[i] == Enhance(data[i], draws[i])
    ensures forall i :: 0 <= i < |ts| ==> ts[i].id == data[i].id && ts[i].title == data[i].title && ts[i].completed == data[i].completed
    ensures forall i :: 0 <= i < |ts| ==> WellFormed(ts[i])
  {
    seq(|data|, i requires 0 <= i < |data| => Enhance(data[i], draws[i]))
  }

  /** The payload of a fulfilled add: the service's record for the new task, decorated. */
  function AddPayload(response: RawTask, d: Draw): (t: Task)
    requires ValidDraw(d)
    ensures t == Enhance(response, d)
    ensures t.id == response.id && t.userId == response.userId && t.title == response.title
    ensures t.completed == response.completed && WellFormed(t)
  {
    Enhance(response, d)
  }

  /** What the task service returns for a created task: the posted body with a new id. */
  function CreatedRecord(task: Task, newId: int): (r: RawTask)
    ensures r.id == newId && r.userId == 1 && r.title == task.title && !r.completed
  {
    RawTask(newId, 1, task.title, false)
  }

  /**
   * Only the title of a task entered in the form reaches the store when the
   * service echoes the create request: the description, the due date, the
   * status and the progress are replaced by decoration.
   */
  lemma AddedTaskKeepsOnlyTitle(task: Task, newId: int, d: Draw)
    requires ValidDraw(d)
    ensures var t := AddPayload(CreatedRecord(task, newId), d);
      && t.id == newId && t.title == task.title && !t.completed
      && t.description == "Task description for " + task.title
      && t.dueDate == d.dueDate
      && t.status == OpenStatuses[d.statusPick]
      && t.progress == (if t.status == InProgress then d.progressRoll + 1 else 0)
  {
  }

  // ---------------------------------------------------------------------------
  // Updating: the merge of the service response over the sent task
  // ---------------------------------------------------------------------------

  /** The fields a service response may carry; an absent field is `None`. */
  datatype ServerFields = ServerFields(id: Option<int>, title: Option<string>, completed: Option<bool>, userId: Option<int>)

  function Pick<X>(o: Option<X>, fallback: X): X {
    if o.Some? then o.value else fallback
  }

  /** `{ ...task, ...data }`: each field the server sends wins, every other field is the task's. */
  function Merge(task: Task, data: ServerFields): (r: Task)
    ensures data.id.Some? ==> r.id == data.id.value
    ensures data.id.None? ==> r.id == task.id
    ensures data.title.Some? ==> r.title == data.title.value
    ensures data.title.None? ==> r.title == task.title
    ensures data.completed.Some? ==> r.completed == data.completed.value
    ensures data.completed.None? ==> r.completed == task.completed
    ensures data.userId.Some? ==> r.userId == data.userId.value
    ensures data.userId.None? ==> r.userId == task.userId
    ensures r.description == task.description && r.dueDate == task.dueDate
    ensures r.status == task.status && r.progress == task.progress
  {
    task.(id := Pick(data.id, task.id), title := Pick(data.title, task.title),
          completed := Pick(data.completed, task.completed), userId := Pick(data.userId, task.userId))
  }

  /** A response that carries no fields leaves the task as it was sent. */
  lemma MergeEmpty(task: Task)
    ensures Merge(task, ServerFields(None, None, None, None)) == task
  {
  }

  /** Merging the same response twice is merging it once. */
  lemma MergeIdempotent(task: Task, data: ServerFields)
    ensures Merge(Merge(task, data), data) == Merge(task, data)
  {
  }

  /** The body `updateTaskAsync` sends: id, title and completed of the task, and a fixed `userId` of 1. */
  function UpdateBody(task: Task): (b: ServerFields)
    ensures b.id == Some(task.id) && b.title == Some(task.title) && b.completed == Some(task.completed)
    ensures b.userId == Some(1)
  {
    ServerFields(Some(task.id), Some(task.title), Some(task.completed), Some(1))
  }

  /**
   * When the service echoes the update body, the payload of the fulfilled
   * update is the sent task with its `userId` overwritten by 1.
   */
  lemma EchoedUpdate(task: Task)
    ensures Merge(task, UpdateBody(task)) == task.(userId := 1)
    ensures Merge(task, UpdateBody(task)) == task <==> task.userId == 1
  {
  }

  // ---------------------------------------------------------------------------
  // Projections of the task sequence
  // ---------------------------------------------------------------------------

  /** `findIndex(t => t.id === id)`: the first position holding that id, if any. */
  function FindIndex(ts: seq<Task>, id: int): (r: Option<nat>)
    ensures r.Some? ==> r.value < |ts| && ts[r.value].id == id
    ensures r.Some? ==> forall j :: 0 <= j < r.value ==> ts[j].id != id
    ensures r.None? <==> forall j :: 0 <= j < |ts| ==> ts[j].id != id
  {
    if ts == [] then None
    else if ts[0].id == id then Some(0)
    else
      match FindIndex(ts[1..], id)
      case Some(i) => Some(i + 1)
      case None => None
  }

  /**
   * `toLowerCase().trim()`, applied to the search term and to the status
   * filter: no upper-case letter is left, it is its own normal form, and it
   * is empty exactly when the payload is all whitespace.
   */
  function Normalized(payload: string): (term: string)
    ensures forall i :: 0 <= i < |term| ==> !('A' <= term[i] <= 'Z')
    ensures term == [] <==> forall i :: 0 <= i < |payload| ==> IsSpace(payload[i])
  {
    var low := Lower(payload);
    assert forall i :: 0 <= i < |payload| ==> (IsSpace(low[i]) <==> IsSpace(payload[i]));
    TrimKeepsNoUpperCase(low);
    Trim(low)
  }

  /** Normalising a normalised term changes nothing. */
  lemma NormalizedIdempotent(payload: string)
    ensures Normalized(Normalized(payload)) == Normalized(payload)
  {
    var term := Normalized(payload);
    LowerOfLowerCase(term);
    TrimIdempotent(Lower(payload));
  }

  predicate TitleMatches(t: Task, term: string) {
    Contains(Lower(t.title), term)
  }

  /**
   * What `searchTasks` displays: all of `ts` for a blank term, otherwise the
   * order-preserving subsequence of `ts` whose lower-cased title contains the term.
   */
  function SearchResult(ts: seq<Task>, payload: string): (r: seq<Task>)
    ensures Normalized(payload) == [] ==> r == ts
    ensures IsSubsequence(r, ts)
    ensures Normalized(payload) != [] ==>
      forall t :: multiset(r)[t] == if TitleMatches(t, Normalized(payload)) then multiset(ts)[t] else 0
  {
    var term := Normalized(payload);
    if term == [] then
      SubsequenceReflexive(ts);
      ts
    else
      Filter(ts, (t: Task) => TitleMatches(t, term))
  }

  /**
   * What `filterTasks` displays: all of `ts` for "all", otherwise the
   * order-preserving subsequence of `ts` whose lower-cased status equals the filter.
   */
  function FilterResult(ts: seq<Task>, payload: string): (r: seq<Task>)
    ensures Normalized(payload) == "all" ==> r == ts
    ensures IsSubsequence(r, ts)
    ensures Normalized(payload) != "all" ==>
      forall t :: multiset(r)[t] == if Lower(t.status) == Normalized(payload) then multiset(ts)[t] else 0
  {
    var f := Normalized(payload);
    if f == "all" then
      SubsequenceReflexive(ts);
      ts
    else
      Filter(ts, (t: Task) => Lower(t.status) == f)
  }

  /** A filter that no task's status matches shows nothing. */
  lemma FilterResultEmpty(ts: seq<Task>, payload: string)
    requires Normalized(payload) != "all"
    requires forall i :: 0 <= i < |ts| ==> Lower(ts[i].status) != Normalized(payload)
    ensures FilterResult(ts, payload) == []
  {
  }

  /** What a fulfilled delete keeps: `tasks.filter(t => t.id !== id)`. */
  function WithoutId(ts: seq<Task>, id: int): (r: seq<Task>)
    ensures IsSubsequence(r, ts)
    ensures forall t :: multiset(r)[t] == if t.id != id then multiset(ts)[t] else 0
    ensures FindIndex(ts, id).None? ==> r == ts
  {
    Filter(ts, (t: Task) => t.id != id)
  }

  /** No task with the deleted id is left, and every task with another id stays. */
  lemma WithoutIdMembers(ts: seq<Task>, id: int, t: Task)
    ensures t in WithoutId(ts, id) <==> t in ts && t.id != id
  {
    FilterMembers(ts, (t: Task) => t.id != id, t);
  }

  // ---------------------------------------------------------------------------
  // Toggling completion
  // ---------------------------------------------------------------------------

  /**
   * The toggle applied to the found task: `completed` flips, status and
   * progress follow it, and nothing else changes.
   */
  function Toggled(t: Task): (r: Task)
    ensures r.completed == !t.completed
    ensures Settled(r) && WellFormed(r)
    ensures SameIdentity(r, t)
  {
    var done := !t.completed;
    t.(completed := done, status := if done then Completed else Pending, progress := if done then 100 else 0)
  }

  /** What `toggleTaskCompletion` leaves in `tasks`: the first task with the id toggled, all others as they were. */
  function ToggleFirst(ts: seq<Task>, id: int): (r: seq<Task>)
    ensures |r| == |ts|
    ensures FindIndex(ts, id).None? ==> r == ts
    ensures FindIndex(ts, id).Some? ==>
      var i := FindIndex(ts, id).value;
      r[i] == Toggled(ts[i]) && forall j :: 0 <= j < |ts| && j != i ==> r[j] == ts[j]
  {
    match FindIndex(ts, id)
    case None => ts
    case Some(i) => ts[i := Toggled(ts[i])]
  }

  /** Two sequences with the same ids at the same positions have the same first position for every id. */
  lemma {:induction false} FindIndexSameIds(a: seq<Task>, b: seq<Task>, id: int)
    requires |a| == |b| && forall j :: 0 <= j < |a| ==> a[j].id == b[j].id
    ensures FindIndex(a, id) == FindIndex(b, id)
  {
    if a != [] && a[0].id != id {
      FindIndexSameIds(a[1..], b[1..], id);
    }
  }

  /** Toggling keeps every id where it was, so the first position of any id is unchanged. */
  lemma ToggleFirstKeepsIds(ts: seq<Task>, id: int, other: int)
    ensures FindIndex(ToggleFirst(ts, id), other) == FindIndex(ts, other)
  {
    FindIndexSameIds(ToggleFirst(ts, id), ts, other);
  }

  /** A toggle twice over restores `completed` of the toggled task. */
  lemma ToggledTwice(t: Task)
    ensures Toggled(Toggled(t)).completed == t.completed
    ensures Toggled(Toggled(t)) == t <==> Settled(t)
    ensures !t.completed ==> Toggled(Toggled(t)) == t.(status := Pending, progress := 0)
  {
  }

  /**
   * Toggling the same id twice restores every task's `completed`; the whole
   * sequence comes back exactly when the toggled task was settled or the id is absent.
   */
  lemma {:induction false} ToggleFirstTwice(ts: seq<Task>, id: int)
    ensures |ToggleFirst(ToggleFirst(ts, id), id)| == |ts|
    ensures forall j :: 0 <= j < |ts| ==> ToggleFirst(ToggleFirst(ts, id), id)[j].completed == ts[j].completed
    ensures ToggleFirst(ToggleFirst(ts, id), id) == ts <==>
      (FindIndex(ts, id).None? || Settled(ts[FindIndex(ts, id).value]))
  {
    ToggleFirstKeepsIds(ts, id, id);
    var once := ToggleFirst(ts, id);
    var twice := ToggleFirst(once, id);
    match FindIndex(ts, id)
    case None =>
    case Some(i) =>
      ToggledTwice(ts[i]);
      assert twice[i] == Toggled(Toggled(ts[i]));
      if Settled(ts[i]) {
        assert forall j :: 0 <= j < |ts| ==> twice[j] == ts[j];
      } else {
        assert twice[i] != ts[i];
      }
  }

  // ---------------------------------------------------------------------------
  // Replacing: a fulfilled update
  // ---------------------------------------------------------------------------

  /**
   * What a fulfilled update leaves in `tasks`: the first task with the
   * payload's id replaced by the payload; no match, no change.
   */
  function ReplaceFirst(ts: seq<Task>, payload: Task): (r: seq<Task>)
    ensures |r| == |ts|
    ensures FindIndex(ts, payload.id).None? ==> r == ts
    ensures FindIndex(ts, payload.id).Some? ==>
      var i := FindIndex(ts, payload.id).value;
      r[i] == payload && forall j :: 0 <= j < |ts| && j != i ==> r[j] == ts[j]
  {
    match FindIndex(ts, payload.id)
    case None => ts
    case Some(i) => ts[i := payload]
  }

  /** Replacing by a record that is already there changes nothing. */
  lemma ReplaceFirstSame(ts: seq<Task>, i: nat)
    requires i < |ts| && FindIndex(ts, ts[i].id) == Some(i)
    ensures ReplaceFirst(ts, ts[i]) == ts
  {
  }

  // ---------------------------------------------------------------------------
  // The store
  // ---------------------------------------------------------------------------

  /** The store state `{tasks, displayedTasks, isLoading, error}`, one method per reducer case. */
  class TaskStore {
    var tasks: seq<Task>
    var displayedTasks: seq<Task>
    var isLoading: bool
    var error: Option<string>

    /** The displayed tasks are an order-preserving subsequence of the tasks. */
    ghost predicate Coherent()
      reads this
    {
      IsSubsequence(displayedTasks, tasks)
    }

    /** `INITIAL_STATE`. */
    constructor ()
      ensures tasks == [] && displayedTasks == [] && !isLoading && error == None
      ensures Coherent()
    {
      tasks, displayedTasks, isLoading, error := [], [], false, None;
    }

    /** `setDisplayedTasks`: any payload, so the only reducer that can break `Coherent()`. */
    method SetDisplayedTasks(payload: seq<Task>)
      modifies this`displayedTasks
      ensures displayedTasks == payload
      ensures IsSubsequence(payload, tasks) ==> Coherent()
    {
      displayedTasks := payload;
    }

    /** `searchTasks`: projects `tasks`, never the previous `displayedTasks`. */
    method SearchTasks(payload: string)
      modifies this`displayedTasks
      ensures displayedTasks == SearchResult(tasks, payload)
      ensures Coherent()
    {
      displayedTasks := SearchResult(tasks, payload);
    }

    /** `filterTasks`: projects `tasks`, never the previous `displayedTasks`. */
    method FilterTasks(payload: string)
      modifies this`displayedTasks
      ensures displayedTasks == FilterResult(tasks, payload)
      ensures Coherent()
    {
      displayedTasks := FilterResult(tasks, payload);
    }

    /** `toggleTaskCompletion`: flips the first task with the id in place, then shows every task. */
    method ToggleTaskCompletion(id: int)
      modifies this`tasks, this`displayedTasks
      ensures tasks == ToggleFirst(old(tasks), id)
      ensures displayedTasks == tasks
      ensures Coherent()
    {
      var found := FindIndex(tasks, id);
      if found.Some? {
        var i := found.value;
        var task := tasks[i];
        var done := !task.completed;
        task := task.(completed := done);
        task := task.(status := if task.completed then Completed else Pending);
        task := task.(progress := if task.completed then 100 else 0);
        tasks := tasks[i := task];
      }
      displayedTasks := tasks;
      SubsequenceReflexive(tasks);
    }

    /** `fetchTasks.pending`. */
    method FetchPending()
      modifies this`isLoading, this`error
      ensures isLoading && error == None
    {
      isLoading := true;
      error := None;
    }

    /** `fetchTasks.fulfilled`: the fetched records replace both sequences. */
    method FetchFulfilled(payload: seq<Task>)
      modifies this`isLoading, this`tasks, this`displayedTasks
      ensures !isLoading && tasks == payload && displayedTasks == payload
      ensures Coherent()
    {
      isLoading := false;
      tasks := payload;
      displayedTasks := payload;
      SubsequenceReflexive(tasks);
    }

    /** `fetchTasks.rejected`. */
    method FetchRejected(message: string)
      modifies this`isLoading, this`error
      ensures !isLoading && error == Some(message)
    {
      isLoading := false;
      error := Some(message);
    }

    /** `addTaskAsync.pending`. */
    method AddPending()
      modifies this`isLoading, this`error
      ensures isLoading && error == None
    {
      isLoading := true;
      error := None;
    }

    /** `addTaskAsync.fulfilled`: `unshift` the new task, then show every task. */
    method AddFulfilled(payload: Task)
      modifies this`isLoading, this`tasks, this`displayedTasks
      ensures !isLoading
      ensures tasks == [payload] + old(tasks) && |tasks| == |old(tasks)| + 1
      ensures forall j :: 0 <= j < |old(tasks)| ==> tasks[j + 1] == old(tasks)[j]
      ensures displayedTasks == tasks
      ensures Coherent()
    {
      isLoading := false;
      tasks := [payload] + tasks;
      displayedTasks := tasks;
      SubsequenceReflexive(tasks);
    }

    /** `addTaskAsync.rejected`. */
    method AddRejected(message: string)
      modifies this`isLoading, this`error
      ensures !isLoading && error == Some(message)
    {
      isLoading := false;
      error := Some(message);
    }

    /** `updateTaskAsync.pending`. */
    method UpdatePending()
      modifies this`isLoading, this`error
      ensures isLoading && error == None
    {
      isLoading := true;
      error := None;
    }

    /**
     * `updateTaskAsync.fulfilled`: replaces the first task with the payload's
     * id and shows every task; with no such task both sequences stay as they were.
     */
    method UpdateFulfilled(payload: Task)
      modifies this`isLoading, this`tasks, this`displayedTasks
      ensures !isLoading
      ensures tasks == ReplaceFirst(old(tasks), payload)
      ensures FindIndex(old(tasks), payload.id).Some? ==> displayedTasks == tasks
      ensures FindIndex(old(tasks), payload.id).None? ==> displayedTasks == old(displayedTasks)
      ensures old(Coherent()) ==> Coherent()
    {
      isLoading := false;
      var index := FindIndex(tasks, payload.id);
      if index.Some? {
        tasks := tasks[index.value := payload];
        displayedTasks := tasks;
        SubsequenceReflexive(tasks);
      }
    }

    /** `updateTaskAsync.rejected`. */
    method UpdateRejected(message: string)
      modifies this`isLoading, this`error
      ensures !isLoading && error == Some(message)
    {
      isLoading := false;
      error := Some(message);
    }

    /** `deleteTaskAsync.pending`. */
    method DeletePending()
      modifies this`isLoading, this`error
      ensures isLoading && error == None
    {
      isLoading := true;
      error := None;
    }

    /** `deleteTaskAsync.fulfilled`: drops every task with the id, then shows every task. */
    method DeleteFulfilled(id: int)
      modifies this`isLoading, this`tasks, this`displayedTasks
      ensures !isLoading
      ensures tasks == WithoutId(old(tasks), id)
      ensures displayedTasks == tasks
      ensures Coherent()
    {
      isLoading := false;
      tasks := WithoutId(tasks, id);
      displayedTasks := tasks;
      SubsequenceReflexive(tasks);
    }

    /** `deleteTaskAsync.rejected`. */
    method DeleteRejected(message: string)
      modifies this`isLoading, this`error
      ensures !isLoading && error == Some(message)
    {
      isLoading := false;
      error := Some(message);
    }
  }

  /**
   * One pending task titled "Buy milk": filtering on "completed" shows
   * nothing, and filtering on "all" shows the task again.
   */
  method BuyMilkFilter(t: Task)
    requires t.title == "Buy milk" && t.status == Pending
  {
    var store := new TaskStore();
    store.FetchFulfilled([t]);
    LowerOfLowerCase(Completed);
    TrimOfTrimmed(Completed);
    assert |Lower(t.status)| != |Completed|;
    FilterResultEmpty([t], Completed);
    store.FilterTasks(Completed);
    assert store.displayedTasks == [];
    LowerOfLowerCase("all");
    TrimOfTrimmed("all");
    store.FilterTasks("all");
    assert store.displayedTasks == [t];
  }
}
