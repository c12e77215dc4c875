/** The task list (src/components/tasks/TaskList.tsx): the top-level tasks that pass
    the project and status selectors, and the badge colours of priorities and states
    (shared with the search page). */
module TaskList {
  import opened Wrappers
  import opened Domain
  import opened Seqs

  /** The project selector: 'all', or `task.proyecto.id?.toString() === selected`, so a task of a
      project without an id matches no chosen project. */
  predicate ProjectAccepts(pf: Choice<int>, t: Task)
  {
    pf.All? || t.project.id == Some(pf.value)
  }

  /** `!task.tareaPadre`. */
  function TopLevel(): Task -> bool
  {
    (t: Task) => t.parent.None?
  }

  function SelectorsAccept(pf: Choice<int>, sf: Choice<TaskStatus>): Task -> bool
  {
    (t: Task) => ProjectAccepts(pf, t) && Accepts(sf, t.status)
  }

  /** `filteredTasks`: the top-level tasks, then those the two selectors accept. */
  function FilteredTasks(tasks: seq<Task>, pf: Choice<int>, sf: Choice<TaskStatus>): (r: seq<Task>)
    ensures |r| <= |tasks|
    ensures forall i :: 0 <= i < |r| ==>
      r[i] in tasks && r[i].parent.None? && ProjectAccepts(pf, r[i]) && Accepts(sf, r[i].status)
  {
    Filter(SelectorsAccept(pf, sf), Filter(TopLevel(), tasks))
  }

  /** A task is listed exactly when it is a top-level task of the input that both selectors accept;
      no subtask is ever listed. */
  lemma FilteredTasksMeaning(tasks: seq<Task>, pf: Choice<int>, sf: Choice<TaskStatus>, t: Task)
    ensures t in FilteredTasks(tasks, pf, sf) <==>
      t in tasks && t.parent.None? && ProjectAccepts(pf, t) && Accepts(sf, t.status)
    ensures t in FilteredTasks(tasks, pf, sf) ==> t.parent.None?
  {
  }

  /** With both selectors on 'all' the list is exactly the top-level tasks, in input order. */
  lemma AllSelectorsListTopLevel(tasks: seq<Task>)
    ensures FilteredTasks(tasks, All, All) == Filter(TopLevel(), tasks)
  {
    FilterKeepsAll(SelectorsAccept(All, All), Filter(TopLevel(), tasks));
  }

  /** The list keeps the input order: it is the input with some tasks left out. */
  lemma FilteredTasksSubsequence(tasks: seq<Task>, pf: Choice<int>, sf: Choice<TaskStatus>)
    ensures IsSubsequence(FilteredTasks(tasks, pf, sf), tasks)
  {
    var top := Filter(TopLevel(), tasks);
    FilterIsSubsequence(TopLevel(), tasks);
    FilterIsSubsequence(SelectorsAccept(pf, sf), top);
    SubsequenceTransitive(FilteredTasks(tasks, pf, sf), top, tasks);
  }

  /* ---------- badge colours ---------- */

  /** `getPrioridadColor`. */
  function PriorityVariant(p: Priority): string
  {
    match p
    case Alta => "danger"
    case Media => "warning"
    case Baja => "info"
  }

  /** `getEstadoColor`. */
  function StatusVariant(s: TaskStatus): string
  {
    match s
    case Pendiente => "secondary"
    case EnProgreso => "primary"
    case Completada => "success"
  }

  /** Each map gives every value its own colour, so the colour tells the value back. */
  lemma VariantsDistinct(p1: Priority, p2: Priority, s1: TaskStatus, s2: TaskStatus)
    ensures PriorityVariant(p1) == PriorityVariant(p2) <==> p1 == p2
    ensures StatusVariant(s1) == StatusVariant(s2) <==> s1 == s2
  {
    if PriorityVariant(p1) == PriorityVariant(p2) {
      assert PriorityVariant(p1)[0] == PriorityVariant(p2)[0];
    }
    if StatusVariant(s1) == StatusVariant(s2) {
      assert StatusVariant(s1)[1] == StatusVariant(s2)[1];
    }
  }
}
