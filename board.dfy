/**
 * What the two task boards share (src/components/KanbanBoard.tsx and
 * src/components/MissionControl.tsx): the five status columns, grouping
 * tasks into them, and the drop of a dragged card on a column.
 */
module Board {
  import opened Wrappers
  import opened Seqs
  import opened Types

  /** The columns, left to right. */
  const Statuses: seq<TaskStatus> := [Inbox, Assigned, InProgress, Review, Done]

  /** The column id a status is stored and dropped under. */
  function StatusId(st: TaskStatus): string {
    match st
    case Inbox => "inbox"
    case Assigned => "assigned"
    case InProgress => "in_progress"
    case Review => "review"
    case Done => "done"
  }

  /** The column a drop target id names, if it names one (`COLUMNS.some(c => c.id === id)`). */
  function ColumnOf(id: string): (r: Option<TaskStatus>)
    ensures r.Some? ==> StatusId(r.value) == id
    ensures r.None? ==> forall st: TaskStatus :: StatusId(st) != id
  {
    if id == "inbox" then Some(Inbox)
    else if id == "assigned" then Some(Assigned)
    else if id == "in_progress" then Some(InProgress)
    else if id == "review" then Some(Review)
    else if id == "done" then Some(Done)
    else None
  }

  function HasStatus(st: TaskStatus): Task -> bool {
    (t: Task) => t.status == st
  }

  /** The tasks of one column, in input order. */
  function Column(tasks: seq<Task>, st: TaskStatus): seq<Task> {
    Filter(HasStatus(st), tasks)
  }

  /** All columns of a grouping. */
  ghost predicate Grouped(g: map<TaskStatus, seq<Task>>, tasks: seq<Task>) {
    forall st: TaskStatus :: st in g && g[st] == Column(tasks, st)
  }

  /**
   * The `grouped[task.status].push(task)` loop: every column holds the
   * tasks of its status, in input order.
   */
  method GroupByStatus(tasks: seq<Task>) returns (g: map<TaskStatus, seq<Task>>)
    ensures Grouped(g, tasks)
  {
    g := map[Inbox := [], Assigned := [], InProgress := [], Review := [], Done := []];
    var i := 0;
    forall st: TaskStatus
      ensures st in g && g[st] == Column(tasks[..0], st)
    {
      assert tasks[..0] == [];
      match st {
        case Inbox =>
        case Assigned =>
        case InProgress =>
        case Review =>
        case Done =>
      }
    }
    while i < |tasks|
      invariant i <= |tasks| && Grouped(g, tasks[..i])
    {
      var t := tasks[i];
      forall st: TaskStatus
        ensures Column(tasks[..i + 1], st) == Column(tasks[..i], st) + (if t.status == st then [t] else [])
      {
        FilterSnoc(HasStatus(st), tasks, i);
      }
      g := g[t.status := g[t.status] + [t]];
      i := i + 1;
    }
    assert tasks[..i] == tasks;
  }

  /** The column lengths add up to the number of tasks. */
  function Total(tasks: seq<Task>): nat {
    |Column(tasks, Inbox)| + |Column(tasks, Assigned)| + |Column(tasks, InProgress)|
    + |Column(tasks, Review)| + |Column(tasks, Done)|
  }

  /**
   * The columns partition the tasks: each task is in the column of its
   * status and in no other, and the columns hold as many tasks as the
   * input.
   */
  lemma {:induction false} ColumnsPartition(tasks: seq<Task>)
    ensures Total(tasks) == |tasks|
    ensures forall i, st :: 0 <= i < |tasks| ==> (tasks[i] in Column(tasks, st) <==> st == tasks[i].status)
  {
    if tasks != [] {
      ColumnsPartition(tasks[1..]);
      forall i, st | 0 <= i < |tasks|
        ensures tasks[i] in Column(tasks, st) <==> st == tasks[i].status
      {
        if tasks[i] in Column(tasks, st) {
        }
      }
    }
  }

  /** The first task with the given id (`tasks.find`). */
  function FindTask(tasks: seq<Task>, id: string): (r: Option<Task>)
    ensures r.Some? ==> r.value in tasks && r.value.id == id
    ensures r.None? ==> forall k :: 0 <= k < |tasks| ==> tasks[k].id != id
    ensures r.Some? ==>
      exists k :: 0 <= k < |tasks| && tasks[k] == r.value && forall j :: 0 <= j < k ==> tasks[j].id != id
  {
    if tasks == [] then None
    else if tasks[0].id == id then Some(tasks[0])
    else
      var r := FindTask(tasks[1..], id);
      if r.Some? then
        var k :| 0 <= k < |tasks| - 1 && tasks[1..][k] == r.value && forall j :: 0 <= j < k ==> tasks[1..][j].id != id;
        assert tasks[k + 1] == r.value && forall j :: 0 <= j < k + 1 ==> tasks[j].id != id by {
          forall j | 0 <= j < k + 1 ensures tasks[j].id != id {
            if j > 0 { assert tasks[j] == tasks[1..][j - 1]; }
          }
        }
        r
      else r
  }

  /**
   * `handleDragEnd`: the update sent for the card `activeId` dropped on
   * `over` at time `now`, if any. An update is sent exactly when the card
   * is known and the target is a column other than the card's own; it is
   * the card with only its status moved to the target and `updatedAt` set
   * to `now`.
   */
  function DragEnd(tasks: seq<Task>, activeId: string, over: Option<string>, now: int): (u: Option<Task>)
    ensures u.Some? <==>
      (over.Some? && FindTask(tasks, activeId).Some? && ColumnOf(over.value).Some?
       && FindTask(tasks, activeId).value.status != ColumnOf(over.value).value)
    ensures u.Some? ==>
      var t := FindTask(tasks, activeId).value;
      && t in tasks && StatusId(u.value.status) == over.value && u.value.status != t.status
      && u.value == t.(status := u.value.status, updatedAt := now)
  {
    if over.None? then None
    else
      var task := FindTask(tasks, activeId);
      var col := ColumnOf(over.value);
      if task.None? || col.None? || task.value.status == col.value then None
      else Some(task.value.(status := col.value, updatedAt := now))
  }
}
