/**
 * The kanban board (src/components/KanbanBoard.tsx): the agent and
 * priority filters, and the columns, each ordered by priority and then by
 * age, newest first.
 */
module Kanban {
  import opened Wrappers
  import opened Seqs
  import opened Types
  import opened Board

  /**
   * The filter: a set agent filter keeps the tasks assigned to that agent,
   * a set priority filter the tasks of that priority. An empty agent id
   * counts as unset, as in `if (filterAgentId && …)`.
   */
  function Passes(agent: Option<string>, priority: Option<TaskPriority>): Task -> bool {
    (t: Task) =>
      (agent.None? || agent.value == "" || t.assignedAgentId == Some(agent.value))
      && (priority.None? || t.priority == priority)
  }

  function FilteredTasks(tasks: seq<Task>, agent: Option<string>, priority: Option<TaskPriority>): (r: seq<Task>)
    ensures forall t :: t in r <==> t in tasks && Passes(agent, priority)(t)
  {
    Filter(Passes(agent, priority), tasks)
  }

  /** `priorityOrder`: high 0, medium 1, low 2, none 3. */
  function Rank(p: Option<TaskPriority>): int {
    match p
    case Some(High) => 0
    case Some(Medium) => 1
    case Some(Low) => 2
    case None => 3
  }

  /** The comparator: lower rank first, then the larger `createdAt` first. */
  function CardKey(t: Task): (int, int) {
    (Rank(t.priority), -t.createdAt)
  }

  /** Both sorting passes of `tasksByStatus` done: every column sorted by `CardKey`. */
  ghost predicate SortedColumns(g: map<TaskStatus, seq<Task>>, tasks: seq<Task>, done: nat) {
    done <= |Statuses|
    && (forall k :: 0 <= k < done ==> Statuses[k] in g && g[Statuses[k]] == SortBy(CardKey, Column(tasks, Statuses[k])))
    && (forall k :: done <= k < |Statuses| ==> Statuses[k] in g && g[Statuses[k]] == Column(tasks, Statuses[k]))
  }

  /**
   * `tasksByStatus`: the filtered tasks grouped by status, then each
   * group sorted by the priority comparator (a stable sort).
   */
  method TasksByStatus(tasks: seq<Task>, agent: Option<string>, priority: Option<TaskPriority>)
    returns (g: map<TaskStatus, seq<Task>>)
    ensures forall st: TaskStatus :: st in g && g[st] == SortBy(CardKey, Column(FilteredTasks(tasks, agent, priority), st))
  {
    var filtered := FilteredTasks(tasks, agent, priority);
    g := GroupByStatus(filtered);
    var i := 0;
    while i < |Statuses|
      invariant SortedColumns(g, filtered, i)
    {
      SortStep(g, filtered, i);
      var st := Statuses[i];
      g := g[st := SortBy(CardKey, g[st])];
      i := i + 1;
    }
    SortedAll(g, filtered);
  }

  lemma SortStep(g: map<TaskStatus, seq<Task>>, tasks: seq<Task>, i: nat)
    requires SortedColumns(g, tasks, i) && i < |Statuses|
    ensures SortedColumns(g[Statuses[i] := SortBy(CardKey, g[Statuses[i]])], tasks, i + 1)
  {
    var st := Statuses[i];
    var g' := g[st := SortBy(CardKey, g[st])];
    PositionOf(i);
    forall k | 0 <= k < |Statuses| && k != i
      ensures Statuses[k] in g' && g'[Statuses[k]] == g[Statuses[k]]
    {
      PositionOf(k);
    }
  }

  /** Where a status stands in `Statuses`. */
  function Position(st: TaskStatus): (k: nat)
    ensures k < |Statuses| && Statuses[k] == st
  {
    match st
    case Inbox => 0
    case Assigned => 1
    case InProgress => 2
    case Review => 3
    case Done => 4
  }

  /** `Statuses` lists each status once. */
  lemma PositionOf(k: nat)
    requires k < |Statuses|
    ensures Position(Statuses[k]) == k
  {
  }

  lemma SortedAll(g: map<TaskStatus, seq<Task>>, tasks: seq<Task>)
    requires SortedColumns(g, tasks, |Statuses|)
    ensures forall st: TaskStatus :: st in g && g[st] == SortBy(CardKey, Column(tasks, st))
  {
    forall st: TaskStatus
      ensures st in g && g[st] == SortBy(CardKey, Column(tasks, st))
    {
      var k := Position(st);
    }
  }

  /**
   * A kanban column holds exactly the filtered tasks of its status, each
   * as often as there; a higher rank never follows a lower one, and within
   * a rank the newer task comes first.
   */
  lemma KanbanColumn(tasks: seq<Task>, agent: Option<string>, priority: Option<TaskPriority>, st: TaskStatus)
    ensures var col := SortBy(CardKey, Column(FilteredTasks(tasks, agent, priority), st));
      && multiset(col) == multiset(Column(FilteredTasks(tasks, agent, priority), st))
      && (forall t :: t in col <==> t in tasks && t.status == st && Passes(agent, priority)(t))
      && (forall i, j :: 0 <= i < j < |col| ==>
            Rank(col[i].priority) < Rank(col[j].priority)
            || (Rank(col[i].priority) == Rank(col[j].priority) && col[i].createdAt >= col[j].createdAt))
  {
    var c := Column(FilteredTasks(tasks, agent, priority), st);
    SortBySorted(CardKey, c);
    SortByMembers(CardKey, c);
    CardOrder(SortBy(CardKey, c));
  }

  /** Sorted by `CardKey`: a higher rank never follows a lower one, and within a rank the newer task comes first. */
  lemma CardOrder(col: seq<Task>)
    requires SortedBy(CardKey, col)
    ensures forall i, j :: 0 <= i < j < |col| ==>
      Rank(col[i].priority) < Rank(col[j].priority)
      || (Rank(col[i].priority) == Rank(col[j].priority) && col[i].createdAt >= col[j].createdAt)
  {
    forall i, j | 0 <= i < j < |col|
      ensures Rank(col[i].priority) < Rank(col[j].priority)
            || (Rank(col[i].priority) == Rank(col[j].priority) && col[i].createdAt >= col[j].createdAt)
    {
      assert PairLe(CardKey(col[i]), CardKey(col[j]));
    }
  }
}
