/**
 * The mission-control view (src/components/MissionControl.tsx): the agent
 * filter, the status columns and their five-card previews, and the number
 * of open tasks each agent holds.
 */
module Mission {
  import opened Wrappers
  import opened Seqs
  import opened Types
  import opened Board

  /** Tasks assigned to `agent`. */
  function AssignedTo(agent: string): Task -> bool {
    (t: Task) => t.assignedAgentId == Some(agent)
  }

  /**
   * `filteredTasks`: all tasks when no agent is selected (an empty id
   * counts as none, as `!selectedAgentId` does), otherwise the tasks
   * assigned to the selected agent, each as often as in the input.
   */
  function Selected(tasks: seq<Task>, selected: Option<string>): (r: seq<Task>)
    ensures selected.None? || selected.value == "" ==> r == tasks
    ensures selected.Some? && selected.value != "" ==>
      forall t :: multiset(r)[t] == if t.assignedAgentId == selected then multiset(tasks)[t] else 0
    ensures SubseqOf(r, tasks)
  {
    if selected.None? || selected.value == "" then SubseqSelf(tasks); tasks
    else
      var r := Filter(AssignedTo(selected.value), tasks);
      FilterSubseq(AssignedTo(selected.value), tasks);
      forall t
        ensures multiset(r)[t] == if t.assignedAgentId == selected then multiset(tasks)[t] else 0
      {
        FilterCount(AssignedTo(selected.value), tasks, t);
      }
      r
  }

  /** `tasksByStatus`: the selected tasks, one column per status, in input order. */
  method TasksByStatus(tasks: seq<Task>, selected: Option<string>) returns (g: map<TaskStatus, seq<Task>>)
    ensures forall st: TaskStatus :: st in g && g[st] == Column(Selected(tasks, selected), st)
  {
    g := GroupByStatus(Selected(tasks, selected));
  }

  /** The columns together hold every selected task once, each in the column of its status. */
  lemma ColumnsOfSelection(tasks: seq<Task>, selected: Option<string>)
    ensures Total(Selected(tasks, selected)) == |Selected(tasks, selected)|
    ensures var s := Selected(tasks, selected);
      forall t, st :: t in s ==> (t in Column(s, st) <==> st == t.status)
  {
    var s := Selected(tasks, selected);
    ColumnsPartition(s);
    forall t, st | t in s
      ensures t in Column(s, st) <==> st == t.status
    {
      var i :| 0 <= i < |s| && s[i] == t;
    }
  }

  // ---------------------------------------------------------------- open tasks per agent

  /** The agent an open (not done) task counts towards; an empty id counts as unassigned. */
  function OpenKey(t: Task): Option<string> {
    if t.assignedAgentId.Some? && t.assignedAgentId.value != "" && t.status != Done then t.assignedAgentId
    else None
  }

  /**
   * `taskCountByAgent`: for every agent, the number of its tasks that are
   * not done; agents with none are absent from the map.
   */
  method TaskCountByAgent(tasks: seq<Task>) returns (counts: map<string, nat>)
    ensures forall a :: (a in counts <==> CountKey(OpenKey, tasks, a) > 0)
                        && (a in counts ==> counts[a] == CountKey(OpenKey, tasks, a))
  {
    counts := Tally(OpenKey, tasks);
  }

  /** Whether a task is open. */
  predicate Open(t: Task) {
    t.status != Done
  }

  /** `totalTasks`: the tasks that are not done. */
  function TotalTasks(tasks: seq<Task>): (n: nat)
    ensures n <= |tasks|
    ensures n == |Filter(Open, tasks)|
  {
    CountIsFilterLength(Open, tasks);
    Count(Open, tasks)
  }

  /** The tallies of distinct agents never add up to more than the open tasks. */
  lemma TalliesWithinTotal(tasks: seq<Task>, agents: seq<string>)
    requires Distinct(agents)
    ensures SumCounts(OpenKey, tasks, agents) <= TotalTasks(tasks)
  {
    SumCountsBound(OpenKey, Open, tasks, agents);
  }

  // ---------------------------------------------------------------- column previews

  /** What a column shows: its first cards, the `+N more` note and the `Empty` note. */
  datatype Preview = Preview(shown: seq<Task>, more: Option<nat>, empty: bool)

  /**
   * `MiniColumn`: at most five cards, the first ones of the column; a
   * `+N more` note exactly when cards are hidden, N being how many; the
   * `Empty` note exactly when there are no cards.
   */
  function MiniColumn(tasks: seq<Task>): (v: Preview)
    ensures |v.shown| == Min(5, |tasks|) && v.shown <= tasks
    ensures |tasks| > 5 ==> v.more == Some(|tasks| - 5) && v.shown == tasks[..5]
    ensures v.more.Some? <==> |tasks| > 5
    ensures |v.shown| + (if v.more.Some? then v.more.value else 0) == |tasks|
    ensures v.empty <==> tasks == []
  {
    Preview(Take(tasks, 5), if |tasks| > 5 then Some(|tasks| - 5) else None, |tasks| == 0)
  }
}
