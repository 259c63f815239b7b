// components/dashboard/TaskList.tsx — the dashboard's task list: completion
// and priority handlers, and three orders to show it in.
module TaskList {
  import StableSort

  datatype Priority = High | Medium | Low
  datatype SortBy = Default | HighToLow | LowToHigh
  datatype Task = Task(id: int, text: string, completed: bool, priority: Priority)

  /** `priorityOrder`. */
  function PriorityOrder(p: Priority): int
  {
    match p
    case High => 1
    case Medium => 2
    case Low => 3
  }

  // ---------------------------------------------------------------- handlers

  /** The task list after handleToggleComplete(id). */
  function Toggled(tasks: seq<Task>, id: int): (r: seq<Task>)
    ensures |r| == |tasks|
    ensures forall k :: 0 <= k < |r| ==>
              r[k] == if tasks[k].id == id then tasks[k].(completed := !tasks[k].completed) else tasks[k]
  {
    seq(|tasks|, k requires 0 <= k < |tasks| =>
          if tasks[k].id == id then tasks[k].(completed := !tasks[k].completed) else tasks[k])
  }

  /** The task list after handlePriorityChange(id, priority). */
  function WithPriority(tasks: seq<Task>, id: int, priority: Priority): (r: seq<Task>)
    ensures |r| == |tasks|
    ensures forall k :: 0 <= k < |r| ==>
              r[k] == if tasks[k].id == id then tasks[k].(priority := priority) else tasks[k]
  {
    seq(|tasks|, k requires 0 <= k < |tasks| =>
          if tasks[k].id == id then tasks[k].(priority := priority) else tasks[k])
  }

  /** Toggling the same task twice gives the list back. */
  lemma ToggleTwice(tasks: seq<Task>, id: int)
    ensures Toggled(Toggled(tasks, id), id) == tasks
  {
  }

  /** Toggling changes nothing but `completed`, and that only for the id. */
  lemma ToggleOnlyThatTask(tasks: seq<Task>, id: int, k: nat)
    requires k < |tasks|
    ensures Toggled(tasks, id)[k].completed == (tasks[k].completed != (tasks[k].id == id))
    ensures Toggled(tasks, id)[k].(completed := tasks[k].completed) == tasks[k]
  {
  }

  /** Setting a priority twice is setting it once; other tasks are kept. */
  lemma PriorityIdempotent(tasks: seq<Task>, id: int, priority: Priority)
    ensures WithPriority(WithPriority(tasks, id, priority), id, priority) == WithPriority(tasks, id, priority)
  {
  }

  // ---------------------------------------------------------------- orders

  function CompletedKey(t: Task): real
  {
    if t.completed then 1.0 else 0.0
  }

  /** The default order: the incomplete tasks, then the completed ones, each
      filtered in list order. */
  function DefaultOrder(tasks: seq<Task>): seq<Task>
  {
    StableSort.WithKey(tasks, CompletedKey, 0.0) + StableSort.WithKey(tasks, CompletedKey, 1.0)
  }

  /** The comparator of the two priority sorts. */
  function Compare(sortBy: SortBy, a: Task, b: Task): int
  {
    if a.completed != b.completed then (if a.completed then 1 else -1)
    else if sortBy == HighToLow then PriorityOrder(a.priority) - PriorityOrder(b.priority)
    else if sortBy == LowToHigh then PriorityOrder(b.priority) - PriorityOrder(a.priority)
    else 0
  }

  /** A key whose differences have the comparator's signs: completion
      first, then the priority rank in the chosen direction. */
  function SortKey(sortBy: SortBy, t: Task): real
  {
    (if t.completed then 10.0 else 0.0)
    + (if sortBy == HighToLow then PriorityOrder(t.priority) as real
       else if sortBy == LowToHigh then -(PriorityOrder(t.priority) as real) else 0.0)
  }

  /** The comparator orders any two tasks as their keys do. */
  lemma CompareAgreesWithKey(sortBy: SortBy, a: Task, b: Task)
    ensures Compare(sortBy, a, b) < 0 <==> SortKey(sortBy, a) < SortKey(sortBy, b)
    ensures Compare(sortBy, a, b) == 0 <==> SortKey(sortBy, a) == SortKey(sortBy, b)
  {
  }

  /** `sortedTasks`. */
  function SortedTasks(tasks: seq<Task>, sortBy: SortBy): seq<Task>
  {
    if sortBy == Default then DefaultOrder(tasks)
    else StableSort.Sort(tasks, t => SortKey(sortBy, t))
  }

  /** The default order is the completion order of the stable sort: a
      permutation with every incomplete task first, each group in list order. */
  lemma DefaultIsStableByCompletion(tasks: seq<Task>)
    ensures DefaultOrder(tasks) == StableSort.Sort(tasks, CompletedKey)
    ensures multiset(DefaultOrder(tasks)) == multiset(tasks)
    ensures forall i, j :: 0 <= i < j < |DefaultOrder(tasks)| && DefaultOrder(tasks)[i].completed
                           ==> DefaultOrder(tasks)[j].completed
  {
    StableSort.TwoKeySort(tasks, CompletedKey, 0.0, 1.0);
    StableSort.SortPermutes(tasks, CompletedKey);
    StableSort.SortSorted(tasks, CompletedKey);
    var r := DefaultOrder(tasks);
    forall i, j | 0 <= i < j < |r| && r[i].completed ensures r[j].completed {
      assert CompletedKey(r[i]) <= CompletedKey(r[j]);
    }
  }

  /** Every order shows each task exactly once. */
  lemma SortedTasksPermutes(tasks: seq<Task>, sortBy: SortBy)
    ensures multiset(SortedTasks(tasks, sortBy)) == multiset(tasks)
  {
    if sortBy == Default {
      DefaultIsStableByCompletion(tasks);
    } else {
      StableSort.SortPermutes(tasks, t => SortKey(sortBy, t));
    }
  }

  /** In a priority sort, incomplete tasks come first, and inside each group
      the ranks run in the chosen direction. */
  lemma PrioritySortOrder(tasks: seq<Task>, sortBy: SortBy, i: nat, j: nat)
    requires sortBy != Default
    requires i < j < |SortedTasks(tasks, sortBy)|
    ensures var r := SortedTasks(tasks, sortBy);
            (r[i].completed ==> r[j].completed)
            && (r[i].completed == r[j].completed ==>
                  if sortBy == HighToLow then PriorityOrder(r[i].priority) <= PriorityOrder(r[j].priority)
                  else PriorityOrder(r[i].priority) >= PriorityOrder(r[j].priority))
  {
    StableSort.SortSorted(tasks, t => SortKey(sortBy, t));
    var r := SortedTasks(tasks, sortBy);
    assert SortKey(sortBy, r[i]) <= SortKey(sortBy, r[j]);
  }

  /** Tasks the comparator ties keep their list order. */
  lemma PrioritySortStable(tasks: seq<Task>, sortBy: SortBy, v: real)
    requires sortBy != Default
    ensures StableSort.WithKey(SortedTasks(tasks, sortBy), t => SortKey(sortBy, t), v)
            == StableSort.WithKey(tasks, t => SortKey(sortBy, t), v)
  {
    StableSort.SortStable(tasks, t => SortKey(sortBy, t), v);
  }

  // ---------------------------------------------------------------- the component

  class Board {
    var tasks: seq<Task>
    var sortBy: SortBy

    /** The six starting tasks; their texts are translations. */
    constructor (texts: seq<string>)
      requires |texts| == 6
      ensures sortBy == Default
      ensures |tasks| == 6 && forall k :: 0 <= k < 6 ==> tasks[k].id == k + 1 && tasks[k].text == texts[k]
      ensures forall k :: 0 <= k < 6 ==> tasks[k].completed == (k == 1)
    {
      tasks := [Task(1, texts[0], false, High), Task(2, texts[1], true, High),
                Task(3, texts[2], false, Medium), Task(4, texts[3], false, Low),
                Task(5, texts[4], false, Low), Task(6, texts[5], false, Medium)];
      sortBy := Default;
    }

    /** What is on screen. */
    function Shown(): seq<Task>
      reads this
    {
      SortedTasks(tasks, sortBy)
    }

    method ToggleComplete(id: int)
      modifies this
      ensures tasks == Toggled(old(tasks), id) && sortBy == old(sortBy)
    {
      tasks := Toggled(tasks, id);
    }

    method PriorityChange(id: int, priority: Priority)
      modifies this
      ensures tasks == WithPriority(old(tasks), id, priority) && sortBy == old(sortBy)
    {
      tasks := WithPriority(tasks, id, priority);
    }

    method SetSortBy(value: SortBy)
      modifies this
      ensures sortBy == value && tasks == old(tasks)
    {
      sortBy := value;
    }
  }
}
