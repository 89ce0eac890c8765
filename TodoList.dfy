/** The to-do list (src/components/TodoList.tsx): validated append, completion toggle and
    delete over the tasks collection, the priority colours, and the completed/pending
    split. Each operation returns the new collection, as the source hands a new array to
    `onTasksChange`. */
module TodoList {
  import opened Types
  import opened Seqs
  import opened Text

  /** The "Add New Task" form. */
  datatype TaskForm = TaskForm(title: string, description: string, priority: Priority, dueDate: string)

  /** `addTask`: a title made only of whitespace is refused; otherwise a new, uncompleted
      task is appended with the title as typed, the description as typed (kept even when
      empty), the priority, the due date unless it is empty, and `id` and `now`. */
  function AddTask(tasks: seq<Task>, form: TaskForm, id: string, now: Instant): (r: seq<Task>)
    ensures IsBlank(form.title) ==> r == tasks
    ensures !IsBlank(form.title) ==>
      |r| == |tasks| + 1 && r[..|tasks|] == tasks &&
      var t := r[|tasks|];
      t.id == id && t.title == form.title && t.description == Some(form.description) &&
      !t.completed && t.priority == form.priority && t.createdAt == now &&
      (t.dueDate == None <==> form.dueDate == "") &&
      (t.dueDate != None ==> t.dueDate.value == form.dueDate)
  {
    TrimEmptyIffBlank(form.title);
    if Trim(form.title) == "" then tasks
    else
      var t := Task(id, form.title, Some(form.description), false, form.priority, Optional(form.dueDate), now);
      assert (tasks + [t])[..|tasks|] == tasks;
      tasks + [t]
  }

  /** `toggleTask(id)`: every task with that id has its completed flag flipped and nothing
      else; the other tasks and the length are unchanged. */
  function ToggleTask(tasks: seq<Task>, id: string): (r: seq<Task>)
    ensures |r| == |tasks|
    ensures forall i :: 0 <= i < |r| && tasks[i].id != id ==> r[i] == tasks[i]
    ensures forall i :: 0 <= i < |r| && tasks[i].id == id ==>
      r[i].completed == !tasks[i].completed && r[i].(completed := tasks[i].completed) == tasks[i]
  {
    seq(|tasks|, i requires 0 <= i < |tasks| =>
      if tasks[i].id == id then tasks[i].(completed := !tasks[i].completed) else tasks[i])
  }

  /** Toggling the same id twice restores the list; toggling an id no task has changes
      nothing. */
  lemma ToggleTaskTwice(tasks: seq<Task>, id: string)
    ensures ToggleTask(ToggleTask(tasks, id), id) == tasks
    ensures (forall i :: 0 <= i < |tasks| ==> tasks[i].id != id) ==> ToggleTask(tasks, id) == tasks
  {
  }

  /** `deleteTask(id)`: the tasks whose id differs. */
  function DeleteTask(tasks: seq<Task>, id: string): (r: seq<Task>)
    ensures forall i :: 0 <= i < |r| ==> r[i].id != id && r[i] in tasks
    ensures forall i :: 0 <= i < |tasks| && tasks[i].id != id ==> tasks[i] in r
  {
    Filter(tasks, (t: Task) => t.id != id)
  }

  /** Deleting works piecewise, so the remaining tasks keep their order: on a
      concatenation it is the concatenation of the deletions, and a single task is
      dropped exactly when its id matches. */
  lemma DeleteTaskKeepsOrder(a: seq<Task>, b: seq<Task>, t: Task, id: string)
    ensures DeleteTask(a + b, id) == DeleteTask(a, id) + DeleteTask(b, id)
    ensures DeleteTask([t], id) == if t.id == id then [] else [t]
  {
    FilterAppend(a, b, (t: Task) => t.id != id);
    FilterSingleton(t, (t: Task) => t.id != id);
  }

  /** Deleting an id that no task carries leaves the list unchanged. */
  lemma DeleteAbsentTask(tasks: seq<Task>, id: string)
    requires forall i :: 0 <= i < |tasks| ==> tasks[i].id != id
    ensures DeleteTask(tasks, id) == tasks
  {
    FilterKeepsAll(tasks, (t: Task) => t.id != id);
  }

  /** `getPriorityColor(priority)`: the gray fallback exactly for strings that are not
      one of the three priority names. */
  function PriorityColor(priority: string): (c: string)
    ensures c == "border-gray-300 bg-gray-50" <==> priority != "low" && priority != "medium" && priority != "high"
  {
    if priority == "high" then "border-red-500 bg-red-50"
    else if priority == "medium" then "border-yellow-500 bg-yellow-50"
    else if priority == "low" then "border-green-500 bg-green-50"
    else "border-gray-300 bg-gray-50"
  }

  /** The three priorities get three different colours, none of them the fallback that
      every other string gets. */
  lemma PriorityColorsDistinct(p: Priority, q: Priority, other: string)
    requires other != "low" && other != "medium" && other != "high"
    ensures PriorityColor(PriorityName(p)) == PriorityColor(PriorityName(q)) <==> p == q
    ensures PriorityColor(PriorityName(p)) != PriorityColor(other)
    ensures PriorityColor(other) == "border-gray-300 bg-gray-50"
  {
  }

  predicate IsCompleted(t: Task) { t.completed }

  predicate IsPending(t: Task) { !t.completed }

  function CompletedTasks(tasks: seq<Task>): seq<Task>
  {
    Filter(tasks, IsCompleted)
  }

  function PendingTasks(tasks: seq<Task>): seq<Task>
  {
    Filter(tasks, IsPending)
  }

  /** A new task starts pending: the pending count grows by one and the completed count
      is unchanged. */
  lemma AddTaskCounts(tasks: seq<Task>, form: TaskForm, id: string, now: Instant)
    requires !IsBlank(form.title)
    ensures |CompletedTasks(AddTask(tasks, form, id, now))| == |CompletedTasks(tasks)|
    ensures |PendingTasks(AddTask(tasks, form, id, now))| == |PendingTasks(tasks)| + 1
  {
    var r := AddTask(tasks, form, id, now);
    var t := r[|tasks|];
    assert r == tasks + [t];
    FilterAppend(tasks, [t], IsCompleted);
    FilterAppend(tasks, [t], IsPending);
    FilterSingleton(t, IsCompleted);
    FilterSingleton(t, IsPending);
  }

  /** Every task is either completed or pending: the two counts add up to the number of
      tasks, and each list holds only its own kind. */
  lemma CompletedPendingPartition(tasks: seq<Task>)
    ensures |CompletedTasks(tasks)| + |PendingTasks(tasks)| == |tasks|
    ensures forall i :: 0 <= i < |CompletedTasks(tasks)| ==> CompletedTasks(tasks)[i].completed
    ensures forall i :: 0 <= i < |PendingTasks(tasks)| ==> !PendingTasks(tasks)[i].completed
  {
    FilterComplement(tasks, IsCompleted, IsPending);
  }
}
