/** The calendar page (src/pages/CalendarPage.tsx): tasks with a deadline shown as
    all-day events, coloured by priority unless completed, and the detail modal
    opened by selecting an event. */
module Calendar {
  import opened Wrappers
  import opened Domain
  import opened Seqs

  /** `CalendarEvent`: title, start, end and the task it stands for. */
  datatype Event = Event(title: string, start: Day, end: Day, task: Task)

  /** `.filter((task) => task.deadline)`. */
  function HasDeadline(): Task -> bool
  {
    (t: Task) => t.deadline.Some?
  }

  /** The event of one task with a deadline: it starts and ends on the deadline day. */
  function EventOf(t: Task): Event
    requires t.deadline.Some?
  {
    Event(t.name, t.deadline.value, t.deadline.value, t)
  }

  /** `events`: the tasks with a deadline, in order, each mapped to its event. */
  function Events(tasks: seq<Task>): (evs: seq<Event>)
    ensures |evs| == |Filter(HasDeadline(), tasks)|
    ensures forall k :: 0 <= k < |evs| ==>
      && evs[k].task == Filter(HasDeadline(), tasks)[k]
      && evs[k].start == evs[k].end
      && evs[k].task.deadline == Some(evs[k].start)
      && evs[k].title == evs[k].task.name
  {
    var dated := Filter(HasDeadline(), tasks);
    seq(|dated|, k requires 0 <= k < |dated| => EventOf(dated[k]))
  }

  /** The tasks behind the events. */
  function EventTasks(evs: seq<Event>): (ts: seq<Task>)
    ensures |ts| == |evs|
    ensures forall k :: 0 <= k < |evs| ==> ts[k] == evs[k].task
  {
    seq(|evs|, k requires 0 <= k < |evs| => evs[k].task)
  }

  /** Exactly one event per task with a deadline, in input order: reading the tasks back off the
      events gives the tasks with a deadline and nothing else. */
  lemma EventsOnePerDatedTask(tasks: seq<Task>)
    ensures EventTasks(Events(tasks)) == Filter(HasDeadline(), tasks)
  {
  }

  /** A task appears on the calendar exactly when it is one of the tasks and has a deadline. */
  lemma TaskOnCalendar(tasks: seq<Task>, t: Task)
    ensures (exists e :: e in Events(tasks) && e.task == t) <==> t in tasks && t.deadline.Some?
  {
    var dated := Filter(HasDeadline(), tasks);
    var evs := Events(tasks);
    if t in tasks && t.deadline.Some? {
      var k :| 0 <= k < |dated| && dated[k] == t;
      assert evs[k] in evs;
    }
    if exists e :: e in evs && e.task == t {
      var e :| e in evs && e.task == t;
      var k :| 0 <= k < |evs| && evs[k] == e;
      assert dated[k] in dated;
    }
  }

  /* ---------- event colours ---------- */

  const DefaultColor := "#3174ad"
  const CompletedColor := "#28a745"

  /** The priority `switch`; its `#3174ad` default is never reached for the three priorities. */
  function PriorityColor(p: Priority): string
  {
    match p
    case Alta => "#dc3545"
    case Media => "#ffc107"
    case Baja => "#17a2b8"
  }

  /** `eventStyleGetter`'s `backgroundColor`: by priority, then green when completed. */
  function EventColor(t: Task): string
  {
    var byPriority := PriorityColor(t.priority);
    if t.status == Completada then CompletedColor else byPriority
  }

  /** Green means completed, whatever the priority; otherwise the colour tells the priority back;
      the default colour never shows. */
  lemma EventColorMeaning(t: Task, u: Task)
    ensures EventColor(t) == CompletedColor <==> t.status == Completada
    ensures t.status != Completada && u.status != Completada ==>
      (EventColor(t) == EventColor(u) <==> t.priority == u.priority)
    ensures EventColor(t) != DefaultColor
  {
    if t.status != Completada {
      assert EventColor(t)[2] != CompletedColor[2];
    }
    if t.status != Completada && u.status != Completada && EventColor(t) == EventColor(u) {
      assert EventColor(t)[1] == EventColor(u)[1];
    }
    assert EventColor(t)[1] != DefaultColor[1];
  }

  /* ---------- page state ---------- */

  const LoadErrorMessage := "Error al cargar las tareas"

  class CalendarPage {
    var tasks: seq<Task>
    var loading: bool
    var error: string
    var selectedTask: Option<Task>
    var showModal: bool

    /** The modal is only ever open on a selected task. */
    predicate Valid()
      reads this
    {
      showModal ==> selectedTask.Some?
    }

    constructor ()
      ensures Valid()
      ensures tasks == [] && loading && error == "" && selectedTask == None && !showModal
    {
      tasks, loading, error := [], true, "";
      selectedTask, showModal := None, false;
    }

    /** `loadTasks`: on success the fetched tasks replace the list and the error is cleared; on
        failure the list is kept and the error set, so the page shows only the alert; loading ends
        either way. */
    method LoadTasks(fetchOk: bool, fetched: seq<Task>)
      requires Valid()
      modifies this`tasks, this`loading, this`error
      ensures Valid()
      ensures !loading
      ensures fetchOk ==> tasks == fetched && error == ""
      ensures !fetchOk ==> tasks == old(tasks) && error == LoadErrorMessage
    {
      loading := true;
      if fetchOk {
        tasks := fetched;
        error := "";
      } else {
        error := LoadErrorMessage;
      }
      loading := false;
    }

    /** `handleSelectEvent`: remember the event's task and open the modal. */
    method SelectEvent(e: Event)
      requires Valid()
      modifies this`selectedTask, this`showModal
      ensures Valid()
      ensures selectedTask == Some(e.task) && showModal
    {
      selectedTask := Some(e.task);
      showModal := true;
    }

    /** The modal's `onHide` and its "Cerrar" button: close, keeping the selection. */
    method CloseModal()
      requires Valid()
      modifies this`showModal
      ensures Valid()
      ensures !showModal
    {
      showModal := false;
    }
  }
}
