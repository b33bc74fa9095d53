/**
 * The task scheduler of js/scheduler.js: a list of task records that the
 * scheduler's handlers change in place (create, update, delete, toggle,
 * import), the editing target the task modal remembers, and the pure views
 * over the list (deadline order, overdue, due within a day).
 *
 * Timestamps are integers (milliseconds since the epoch); "now" and the fresh
 * task id are parameters; the answers to `confirm()` are booleans.
 */
module Scheduler {
  import opened JsText
  import Sorting

  const Completed := "completed"
  const Pending := "pending"
  const DefaultPriority := "medium"
  /** One day, in milliseconds: the window of `checkUpcomingDeadlines`. */
  const Day := 86400000

  const MsgTitleRequired := "Task title is required"
  const MsgDeadlineRequired := "Deadline is required"
  const MsgInvalidFile := "Invalid task file format"
  const MsgParseErrorPrefix := "Error parsing task file: "
  const MsgReadError := "Error reading file"

  datatype Task = Task(
    id: string,
    title: string,
    description: string,
    deadline: int,
    priority: string,
    assignee: string,
    status: string,
    createdAt: int,
    updatedAt: int)

  /** The raw values of the task form; an empty deadline input is None. */
  datatype TaskForm = TaskForm(
    title: string,
    description: string,
    deadline: Option<int>,
    priority: string,
    assignee: string,
    status: string)

  /**
   * What `editingTaskId` holds: null, a task id, or the click event the
   * "Add Task" button passes to its listener.
   */
  datatype EditTarget = NoTarget | TaskId(id: string) | ClickEvent

  datatype View = List | Calendar

  /** JavaScript truthiness of `editingTaskId`. */
  predicate Editing(t: EditTarget) {
    t.ClickEvent? || (t.TaskId? && t.id != "")
  }

  /** `tasks.findIndex(t => t.id === id)`, or None for -1. */
  function FindIndex(tasks: seq<Task>, id: string): (r: Option<nat>)
    ensures r.None? <==> forall i :: 0 <= i < |tasks| ==> tasks[i].id != id
    ensures r.Some? ==> r.value < |tasks| && tasks[r.value].id == id
    ensures r.Some? ==> forall i :: 0 <= i < r.value ==> tasks[i].id != id
  {
    if tasks == [] then None
    else if tasks[0].id == id then Some(0)
    else match FindIndex(tasks[1..], id)
      case None => None
      case Some(k) => Some(k + 1)
  }

  /** The task `editingTaskId` refers to; a click event matches no task. */
  function TargetIndex(tasks: seq<Task>, t: EditTarget): Option<nat> {
    if t.TaskId? then FindIndex(tasks, t.id) else None
  }

  // ---------------------------------------------------------------- saving

  datatype SaveOutcome = TitleRequired | DeadlineRequired | Created | Updated(index: nat) | Crashed

  datatype SaveResult = SaveResult(outcome: SaveOutcome, tasks: seq<Task>)

  predicate ValidForm(f: TaskForm) {
    Trim(f.title) != [] && f.deadline.Some?
  }

  /** The record a new task gets: the fresh id, the form's values with three of them trimmed, and `now`. */
  function NewTask(id: string, f: TaskForm, now: int): (t: Task)
    requires f.deadline.Some?
    ensures t.id == id && t.createdAt == now && t.updatedAt == now
    ensures t.title == Trim(f.title) && t.description == Trim(f.description) && t.assignee == Trim(f.assignee)
    ensures t.deadline == f.deadline.value && t.priority == f.priority && t.status == f.status
  {
    Task(id, Trim(f.title), Trim(f.description), f.deadline.value, f.priority, Trim(f.assignee), f.status, now, now)
  }

  /** `{ ...old, ...taskData }`: the form overwrites every editable field. */
  function Merged(prior: Task, f: TaskForm, now: int): (t: Task)
    requires f.deadline.Some?
    ensures t.id == prior.id && t.createdAt == prior.createdAt && t.updatedAt == now
    ensures t.title == Trim(f.title) && t.description == Trim(f.description) && t.assignee == Trim(f.assignee)
    ensures t.deadline == f.deadline.value && t.priority == f.priority && t.status == f.status
  {
    Task(prior.id, Trim(f.title), Trim(f.description), f.deadline.value, f.priority, Trim(f.assignee), f.status,
      prior.createdAt, now)
  }

  /**
   * `saveTask()`: validates the trimmed title, then the deadline; then
   * updates the task being edited, or appends a new one. When the editing
   * target is truthy but names no task, `tasks.find(...)` is undefined and
   * reading its `createdAt` throws before anything is changed.
   */
  function SaveTask(tasks: seq<Task>, target: EditTarget, f: TaskForm, now: int, freshId: string): (r: SaveResult)
    ensures r.outcome == TitleRequired <==> Trim(f.title) == []
    ensures r.outcome == DeadlineRequired <==> Trim(f.title) != [] && f.deadline.None?
    ensures r.outcome == Created <==> ValidForm(f) && !Editing(target)
    ensures r.outcome == Crashed <==> ValidForm(f) && Editing(target) && TargetIndex(tasks, target).None?
    ensures r.outcome in {TitleRequired, DeadlineRequired, Crashed} ==> r.tasks == tasks
    ensures r.outcome == Created ==> r.tasks == tasks + [NewTask(freshId, f, now)]
    ensures r.outcome.Updated? ==>
      && ValidForm(f) && Editing(target)
      && TargetIndex(tasks, target) == Some(r.outcome.index)
      && r.tasks == tasks[r.outcome.index := Merged(tasks[r.outcome.index], f, now)]
  {
    if Trim(f.title) == [] then SaveResult(TitleRequired, tasks)
    else if f.deadline.None? then SaveResult(DeadlineRequired, tasks)
    else if Editing(target) then
      match TargetIndex(tasks, target)
      case None => SaveResult(Crashed, tasks)
      case Some(i) => SaveResult(Updated(i), tasks[i := Merged(tasks[i], f, now)])
    else SaveResult(Created, tasks + [NewTask(freshId, f, now)])
  }

  /**
   * The notification `saveTask()` shows for its outcome (None when it throws):
   * the two validation messages are errors, the two success messages are not.
   */
  function SaveNotice(o: SaveOutcome): (r: Option<Notice>)
    ensures r.None? <==> o == Crashed
    ensures r.Some? ==> (r.value.isError <==> o == TitleRequired || o == DeadlineRequired)
    ensures o == TitleRequired ==> r == Some(Notice(MsgTitleRequired, true))
    ensures o == DeadlineRequired ==> r == Some(Notice(MsgDeadlineRequired, true))
    ensures o == Created ==> r == Some(Notice("Task created successfully!", false))
    ensures o.Updated? ==> r == Some(Notice("Task updated successfully!", false))
  {
    match o
    case TitleRequired => Some(Notice(MsgTitleRequired, true))
    case DeadlineRequired => Some(Notice(MsgDeadlineRequired, true))
    case Created => Some(Notice("Task created successfully!", false))
    case Updated(_) => Some(Notice("Task updated successfully!", false))
    case Crashed => None
  }

  /** The modal is closed (and the target cleared) only when the save went through. */
  function TargetAfterSave(o: SaveOutcome, target: EditTarget): EditTarget {
    if o == Created || o.Updated? then NoTarget else target
  }

  /** An invalid form changes nothing. */
  lemma InvalidFormChangesNothing(tasks: seq<Task>, target: EditTarget, f: TaskForm, now: int, freshId: string)
    requires !ValidForm(f)
    ensures SaveTask(tasks, target, f, now, freshId).tasks == tasks
    ensures TargetAfterSave(SaveTask(tasks, target, f, now, freshId).outcome, target) == target
  {
  }

  /** Creating appends exactly one task with the fresh id and keeps every existing task. */
  lemma CreateAppendsOne(tasks: seq<Task>, f: TaskForm, now: int, freshId: string)
    requires ValidForm(f)
    ensures var r := SaveTask(tasks, NoTarget, f, now, freshId).tasks;
      && |r| == |tasks| + 1 && r[..|tasks|] == tasks && r[|tasks|].id == freshId
      && r[|tasks|].createdAt == now
  {
    var r := SaveTask(tasks, NoTarget, f, now, freshId).tasks;
    assert r == tasks + [NewTask(freshId, f, now)];
    assert r[..|tasks|] == tasks;
  }

  /**
   * Editing a task overwrites its editable fields, keeps its id and creation
   * time and leaves the length and every other task as they were.
   */
  lemma UpdateKeepsOthers(tasks: seq<Task>, id: string, f: TaskForm, now: int, freshId: string)
    requires ValidForm(f) && id != "" && FindIndex(tasks, id).Some?
    ensures var i := FindIndex(tasks, id).value;
      var r := SaveTask(tasks, TaskId(id), f, now, freshId);
      && r.outcome == Updated(i)
      && |r.tasks| == |tasks|
      && r.tasks[i].id == id && r.tasks[i].createdAt == tasks[i].createdAt
      && r.tasks[i].title == Trim(f.title) && r.tasks[i].description == Trim(f.description)
      && r.tasks[i].assignee == Trim(f.assignee) && r.tasks[i].deadline == f.deadline.value
      && r.tasks[i].priority == f.priority && r.tasks[i].status == f.status && r.tasks[i].updatedAt == now
      && (forall j :: 0 <= j < |tasks| && j != i ==> r.tasks[j] == tasks[j])
  {
  }

  /** The form filled in from a task's fields. */
  function FormOf(t: Task): (f: TaskForm)
    ensures f.title == t.title && f.description == t.description && f.assignee == t.assignee
    ensures f.deadline == Some(t.deadline) && f.priority == t.priority && f.status == t.status
  {
    TaskForm(t.title, t.description, Some(t.deadline), t.priority, t.assignee, t.status)
  }

  /** The form `openTaskModal` fills in: the task's fields, or the blank defaults. */
  function FormFor(tasks: seq<Task>, target: EditTarget): (f: TaskForm)
    ensures Editing(target) && TargetIndex(tasks, target).Some? ==>
      f == FormOf(tasks[TargetIndex(tasks, target).value])
    ensures !(Editing(target) && TargetIndex(tasks, target).Some?) ==>
      f == TaskForm("", "", None, DefaultPriority, "", Pending)
  {
    if Editing(target) && TargetIndex(tasks, target).Some? then FormOf(tasks[TargetIndex(tasks, target).value])
    else TaskForm("", "", None, DefaultPriority, "", Pending)
  }

  /** The form as `saveTask()` reads it: title, description and assignee trimmed. */
  function TrimmedForm(f: TaskForm): TaskForm {
    f.(title := Trim(f.title), description := Trim(f.description), assignee := Trim(f.assignee))
  }

  /** A list that agrees with another on every id up to the first match finds the same index. */
  lemma {:induction false} FindIndexSameIds(a: seq<Task>, b: seq<Task>, id: string, i: nat)
    requires i < |a| <= |b|
    requires a[i].id == id && b[i].id == id
    requires forall j :: 0 <= j < i ==> a[j].id == b[j].id && a[j].id != id
    ensures FindIndex(a, id) == Some(i) && FindIndex(b, id) == Some(i)
  {
    if i > 0 {
      FindIndexSameIds(a[1..], b[1..], id, i - 1);
    }
  }

  /** Reopening the task just edited shows the form as saved, trimmed. */
  lemma EditReopensTrimmedForm(tasks: seq<Task>, id: string, f: TaskForm, now: int, freshId: string)
    requires ValidForm(f) && id != "" && FindIndex(tasks, id).Some?
    ensures FormFor(SaveTask(tasks, TaskId(id), f, now, freshId).tasks, TaskId(id)) == TrimmedForm(f)
  {
    var i := FindIndex(tasks, id).value;
    var r := SaveTask(tasks, TaskId(id), f, now, freshId).tasks;
    assert r == tasks[i := Merged(tasks[i], f, now)];
    FindIndexSameIds(r, tasks, id, i);
  }

  /** Reopening a task just created, by its fresh id, shows the form as saved, trimmed. */
  lemma CreateReopensTrimmedForm(tasks: seq<Task>, f: TaskForm, now: int, freshId: string)
    requires ValidForm(f) && freshId != ""
    requires forall i :: 0 <= i < |tasks| ==> tasks[i].id != freshId
    ensures FormFor(SaveTask(tasks, NoTarget, f, now, freshId).tasks, TaskId(freshId)) == TrimmedForm(f)
  {
    var r := SaveTask(tasks, NoTarget, f, now, freshId).tasks;
    assert r == tasks + [NewTask(freshId, f, now)];
    FindIndexSameIds(r, r, freshId, |tasks|);
  }

  /** The blank form of a new task never validates. */
  lemma BlankFormIsRejected(tasks: seq<Task>, target: EditTarget, now: int, freshId: string)
    requires !(Editing(target) && TargetIndex(tasks, target).Some?)
    ensures SaveTask(tasks, target, FormFor(tasks, target), now, freshId).outcome == TitleRequired
  {
    assert Blank("");
  }

  // ----------------------------------------------------- the Add Task button

  /**
   * The "Add Task" button registers `openTaskModal` itself as its click
   * listener, so the editing target becomes the click event. Saving the new
   * task then looks the event up as a task id, finds nothing and throws:
   * the button can never create a task.
   */
  lemma AddButtonSaveChangesNothing(tasks: seq<Task>, f: TaskForm, now: int, freshId: string)
    ensures SaveTask(tasks, ClickEvent, f, now, freshId).tasks == tasks
    ensures SaveTask(tasks, ClickEvent, f, now, freshId).outcome != Created
    ensures ValidForm(f) ==> SaveTask(tasks, ClickEvent, f, now, freshId).outcome == Crashed
  {
  }

  /** With no editing target, as a call `openTaskModal()` intends, saving a valid form creates the task. */
  lemma NewTaskSaveAppends(tasks: seq<Task>, f: TaskForm, now: int, freshId: string)
    requires ValidForm(f)
    ensures SaveTask(tasks, NoTarget, f, now, freshId) == SaveResult(Created, tasks + [NewTask(freshId, f, now)])
    ensures TargetAfterSave(Created, NoTarget) == NoTarget
  {
  }

  // ------------------------------------------------------- delete and toggle

  /** `tasks.filter(t => t.id !== id)`. */
  function RemoveId(tasks: seq<Task>, id: string): (r: seq<Task>)
    ensures |r| <= |tasks|
    ensures forall t :: t in r <==> t in tasks && t.id != id
  {
    if tasks == [] then []
    else (if tasks[0].id != id then [tasks[0]] else []) + RemoveId(tasks[1..], id)
  }

  /** The filter works piecewise, so the kept tasks stay in their original order. */
  lemma {:induction false} RemoveIdAppend(a: seq<Task>, b: seq<Task>, id: string)
    ensures RemoveId(a + b, id) == RemoveId(a, id) + RemoveId(b, id)
  {
    if a == [] {
      assert a + b == b;
    } else {
      assert (a + b)[1..] == a[1..] + b;
      RemoveIdAppend(a[1..], b, id);
    }
  }

  /** A list without the id is kept exactly as it is. */
  lemma {:induction false} RemoveIdAbsent(tasks: seq<Task>, id: string)
    requires forall i :: 0 <= i < |tasks| ==> tasks[i].id != id
    ensures RemoveId(tasks, id) == tasks
  {
    if tasks != [] {
      RemoveIdAbsent(tasks[1..], id);
    }
  }

  /** Deleting twice is deleting once. */
  lemma RemoveIdIdempotent(tasks: seq<Task>, id: string)
    ensures RemoveId(RemoveId(tasks, id), id) == RemoveId(tasks, id)
  {
    var r := RemoveId(tasks, id);
    forall i | 0 <= i < |r| ensures r[i].id != id {
      assert r[i] in r;
    }
    RemoveIdAbsent(r, id);
  }

  function ToggledStatus(s: string): (r: string)
    ensures r != s && (r == Completed || r == Pending)
  {
    if s == Completed then Pending else Completed
  }

  /** Toggling is its own inverse exactly on the two statuses the toggle produces. */
  lemma ToggleTwiceIff(s: string)
    ensures ToggledStatus(ToggledStatus(s)) == s <==> s == Completed || s == Pending
  {
  }

  /** `toggleTaskStatus(id)`: flips the first task with the id and stamps it. */
  function ToggleTask(tasks: seq<Task>, id: string, now: int): (r: seq<Task>)
    ensures |r| == |tasks|
    ensures FindIndex(tasks, id).None? ==> r == tasks
    ensures FindIndex(tasks, id).Some? ==>
      var i := FindIndex(tasks, id).value;
      && r[i].status == (if tasks[i].status == Completed then Pending else Completed)
      && r[i] == tasks[i].(status := r[i].status, updatedAt := now)
      && forall j :: 0 <= j < |tasks| && j != i ==> r[j] == tasks[j]
  {
    match FindIndex(tasks, id)
    case None => tasks
    case Some(i) => tasks[i := tasks[i].(status := ToggledStatus(tasks[i].status), updatedAt := now)]
  }

  // -------------------------------------------------------------- the views

  /** Deadline order: the comparator `new Date(a.deadline) - new Date(b.deadline)`. */
  function DueNoLater(a: Task, b: Task): bool {
    a.deadline <= b.deadline
  }

  lemma DueNoLaterIsTotalPreorder()
    ensures Sorting.TotalPreorder(DueNoLater)
  {
  }

  /** The list view's copy of the tasks, sorted by deadline. */
  function ByDeadline(tasks: seq<Task>): (r: seq<Task>)
    ensures multiset(r) == multiset(tasks)
  {
    Sorting.Sort(tasks, DueNoLater)
  }

  /** The list view shows every task, each as often as it occurs, earliest deadline first. */
  lemma ByDeadlineSortedPermutation(tasks: seq<Task>)
    ensures Sorting.SortedBy(ByDeadline(tasks), DueNoLater)
    ensures multiset(ByDeadline(tasks)) == multiset(tasks)
    ensures |ByDeadline(tasks)| == |tasks|
  {
    DueNoLaterIsTotalPreorder();
    Sorting.SortSorted(tasks, DueNoLater);
    assert |multiset(ByDeadline(tasks))| == |multiset(tasks)|;
  }

  /**
   * Tasks with the same deadline keep the order they have in the list:
   * the tasks due when `t` is due appear in the list view as in `tasks`.
   */
  lemma ByDeadlineStable(tasks: seq<Task>, t: Task)
    ensures forall a :: Sorting.Tied(a, t, DueNoLater) <==> a.deadline == t.deadline
    ensures Sorting.Ties(ByDeadline(tasks), t, DueNoLater) == Sorting.Ties(tasks, t, DueNoLater)
  {
    DueNoLaterIsTotalPreorder();
    Sorting.SortStable(tasks, t, DueNoLater);
  }

  /** The list view's overdue mark. */
  predicate Overdue(t: Task, now: int) {
    t.deadline < now && t.status != Completed
  }

  /** The test `checkUpcomingDeadlines` applies to each task. */
  predicate DueSoon(t: Task, now: int) {
    t.status != Completed && now <= t.deadline <= now + Day
  }

  /** A task is never both overdue and due soon. */
  lemma OverdueNotDueSoon(t: Task, now: int)
    ensures !(Overdue(t, now) && DueSoon(t, now))
  {
  }

  /** The tasks `checkUpcomingDeadlines` reports: `tasks.filter(...)`, in list order. */
  function UpcomingTasks(tasks: seq<Task>, now: int): (r: seq<Task>)
    ensures |r| <= |tasks|
    ensures forall t :: t in r <==> t in tasks && DueSoon(t, now)
  {
    if tasks == [] then []
    else (if DueSoon(tasks[0], now) then [tasks[0]] else []) + UpcomingTasks(tasks[1..], now)
  }

  /** The filter works piecewise, so the reported tasks keep their order. */
  lemma {:induction false} UpcomingTasksAppend(a: seq<Task>, b: seq<Task>, now: int)
    ensures UpcomingTasks(a + b, now) == UpcomingTasks(a, now) + UpcomingTasks(b, now)
  {
    if a == [] {
      assert a + b == b;
    } else {
      assert (a + b)[1..] == a[1..] + b;
      UpcomingTasksAppend(a[1..], b, now);
    }
  }

  /** Each task due soon is reported as often as it occurs, and no other task is. */
  lemma {:induction false} UpcomingTasksCount(tasks: seq<Task>, now: int, t: Task)
    ensures multiset(UpcomingTasks(tasks, now))[t] == if DueSoon(t, now) then multiset(tasks)[t] else 0
  {
    if tasks != [] {
      UpcomingTasksCount(tasks[1..], now, t);
      assert tasks == [tasks[0]] + tasks[1..];
    }
  }

  function Titles(tasks: seq<Task>): (r: seq<string>)
    ensures |r| == |tasks| && forall i :: 0 <= i < |tasks| ==> r[i] == tasks[i].title
  {
    if tasks == [] then [] else [tasks[0].title] + Titles(tasks[1..])
  }

  /** The reminder `checkUpcomingDeadlines` shows, if any task is due soon. */
  function UpcomingNotice(tasks: seq<Task>, now: int): (r: Option<string>)
    ensures r.None? <==> forall t :: t in tasks ==> !DueSoon(t, now)
    ensures r.Some? ==> StartsWith(r.value, "You have " + NatToString(|UpcomingTasks(tasks, now)|))
    ensures r.Some? ==>
      r.value == "You have " + NatToString(|UpcomingTasks(tasks, now)|) + " task(s) due soon: "
                 + Join(Titles(UpcomingTasks(tasks, now)), ", ")
  {
    var up := UpcomingTasks(tasks, now);
    if |up| == 0 then None
    else
      assert up[0] in up;
      var m := "You have " + NatToString(|up|) + " task(s) due soon: " + Join(Titles(up), ", ");
      assert m[..|"You have " + NatToString(|up|)|] == "You have " + NatToString(|up|);
      Some(m)
  }

  // ---------------------------------------------------------------- import

  /**
   * What reading the chosen file gives: a read error (`reader.onerror`), text
   * that is not JSON, JSON that is not an array, or an array.
   */
  datatype ImportFile = ReadError | ParseError(message: string) | NotArray | TaskArray(items: seq<Task>)

  function ImportNotice(file: ImportFile, confirmed: bool): (r: Option<Notice>)
    ensures r.Some? && r.value.isError <==> !file.TaskArray?
    ensures r.None? <==> file.TaskArray? && !confirmed
  {
    match file
    case ReadError => Some(Notice(MsgReadError, true))
    case ParseError(m) => Some(Notice(MsgParseErrorPrefix + m, true))
    case NotArray => Some(Notice(MsgInvalidFile, true))
    case TaskArray(_) => if confirmed then Some(Notice("Tasks imported successfully!", false)) else None
  }

  function Imported(tasks: seq<Task>, file: ImportFile, confirmed: bool): (r: seq<Task>)
    ensures file.TaskArray? && confirmed ==> r == file.items
    ensures !(file.TaskArray? && confirmed) ==> r == tasks
  {
    if file.TaskArray? && confirmed then file.items else tasks
  }

  // ------------------------------------------------------- the handler state

  /** The scheduler's closure state: the task list, the editing target and the view. */
  class TaskScheduler {
    var tasks: seq<Task>
    var editing: EditTarget
    var view: View

    /** Loads the stored list (`JSON.parse(...) || []`), showing the list view. */
    constructor(stored: Option<seq<Task>>)
      ensures tasks == (if stored.Some? then stored.value else [])
      ensures editing == NoTarget && view == List
    {
      tasks := if stored.Some? then stored.value else [];
      editing := NoTarget;
      view := List;
    }

    /** `openTaskModal(taskId)`: remembers the target and returns the form it fills in. */
    method OpenTaskModal(target: EditTarget) returns (f: TaskForm)
      modifies this`editing
      ensures editing == target
      ensures f == FormFor(tasks, target)
    {
      editing := target;
      f := FormFor(tasks, target);
    }

    /** The "Add Task" button as wired: the click event becomes the target. */
    method OpenFromAddButton() returns (f: TaskForm)
      modifies this`editing
      ensures editing == ClickEvent
      ensures f == TaskForm("", "", None, DefaultPriority, "", Pending)
    {
      f := OpenTaskModal(ClickEvent);
    }

    /** The "Add Task" button as intended: `openTaskModal()` with no target. */
    method OpenNewTaskModal() returns (f: TaskForm)
      modifies this`editing
      ensures editing == NoTarget
      ensures f == TaskForm("", "", None, DefaultPriority, "", Pending)
    {
      f := OpenTaskModal(NoTarget);
    }

    /** `closeTaskModalHandler()`. */
    method CloseTaskModal()
      modifies this`editing
      ensures editing == NoTarget
    {
      editing := NoTarget;
    }

    /** `saveTask()` on the current form values. */
    method Save(f: TaskForm, now: int, freshId: string) returns (notice: Option<Notice>)
      modifies this`tasks, this`editing
      ensures var r := SaveTask(old(tasks), old(editing), f, now, freshId);
        && tasks == r.tasks
        && editing == TargetAfterSave(r.outcome, old(editing))
        && notice == SaveNotice(r.outcome)
    {
      var title := Trim(f.title);
      if title == [] {
        return Some(Notice(MsgTitleRequired, true));
      }
      if f.deadline.None? {
        return Some(Notice(MsgDeadlineRequired, true));
      }
      if Editing(editing) {
        var found := TargetIndex(tasks, editing);
        if found.None? {
          // `tasks.find(...).createdAt` throws: nothing below runs.
          return None;
        }
        var i := found.value;
        tasks := tasks[i := Merged(tasks[i], f, now)];
        notice := Some(Notice("Task updated successfully!", false));
      } else {
        tasks := tasks + [NewTask(freshId, f, now)];
        notice := Some(Notice("Task created successfully!", false));
      }
      editing := NoTarget;
    }

    /** `deleteTask(id)`, given the answer to the confirmation. */
    method Delete(id: string, confirmed: bool)
      modifies this`tasks
      ensures tasks == (if confirmed then RemoveId(old(tasks), id) else old(tasks))
    {
      if confirmed {
        tasks := RemoveId(tasks, id);
      }
    }

    /** `toggleTaskStatus(id)`: returns the new status when a task was found. */
    method Toggle(id: string, now: int) returns (status: Option<string>)
      modifies this`tasks
      ensures tasks == ToggleTask(old(tasks), id, now)
      ensures status.Some? <==> FindIndex(old(tasks), id).Some?
      ensures status.Some? ==> status.value == tasks[FindIndex(old(tasks), id).value].status
    {
      var found := FindIndex(tasks, id);
      if found.None? {
        return None;
      }
      var i := found.value;
      var t := tasks[i];
      var s := if t.status == Completed then Pending else Completed;
      tasks := tasks[i := t.(status := s, updatedAt := now)];
      status := Some(s);
    }

    /** `toggleView()`. */
    method ToggleView(calendarChecked: bool)
      modifies this`view
      ensures view == (if calendarChecked then Calendar else List)
    {
      view := if calendarChecked then Calendar else List;
    }

    /** The list view: a sorted copy; the task list itself is not touched. */
    method ListView() returns (shown: seq<Task>)
      ensures Sorting.SortedBy(shown, DueNoLater)
      ensures multiset(shown) == multiset(tasks)
    {
      shown := ByDeadline(tasks);
      ByDeadlineSortedPermutation(tasks);
    }

    /** `checkUpcomingDeadlines()`. */
    method CheckUpcoming(now: int) returns (notice: Option<string>)
      ensures notice.None? <==> forall t :: t in tasks ==> !DueSoon(t, now)
      ensures notice == UpcomingNotice(tasks, now)
    {
      notice := UpcomingNotice(tasks, now);
    }

    /** The file handler of `importTasks()`. */
    method Import(file: ImportFile, confirmed: bool) returns (notice: Option<Notice>)
      modifies this`tasks
      ensures tasks == Imported(old(tasks), file, confirmed)
      ensures notice == ImportNotice(file, confirmed)
    {
      match file
      case ReadError =>
        notice := Some(Notice(MsgReadError, true));
      case ParseError(m) =>
        notice := Some(Notice(MsgParseErrorPrefix + m, true));
      case NotArray =>
        notice := Some(Notice(MsgInvalidFile, true));
      case TaskArray(items) =>
        if confirmed {
          tasks := items;
          notice := Some(Notice("Tasks imported successfully!", false));
        } else {
          notice := None;
        }
    }
  }
}
